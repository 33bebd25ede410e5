/**
 What the interleaved transactions make of the rows, some run of whole endpoint steps
 makes of them. Transactions are put in the order of their commits, but for a
 validation that found an item wanting and wrote so when it no longer was: that one
 is put where it read.
 */
module Serialisation {
  import opened Prelude
  import opened CanonicalJson
  import opened PassportValues
  import opened PassportTables
  import opened PassportSteps
  import opened Footprint
  import opened Stability
  import opened Transactions
  import opened Interleaving
  import PH = PassportHistory
  import Applicability
  import PI = PassportInvariant
  import PR = PassportRuns
  import LO = LockOrder
  import SM = StateMachine

  // ---- a step commutes with another state of an item it does not need ----

  /** The rows with another state of one item. */
  function Marked(db: Db, id: Id, state: SM.State): Db {
    if id in db.items then db.(items := db.items[id := db.items[id].(state := state)]) else db
  }

  /** The step needs no lock of the item's model. */
  ghost predicate Unneeded(db: Db, step: PR.Step, id: Id) {
    id in db.items && LO.ModelRow(db.items[id].model) !in Needs(db, step)
  }

  ghost predicate Commutes(env: Env, db: Db, step: PR.Step, id: Id, state: SM.State)
    requires PR.Enabled(db, step)
  {
    && PR.Enabled(Marked(db, id, state), step)
    && PR.Apply(env, Marked(db, id, state), step) == Marked(PR.Apply(env, db, step), id, state)
  }

  function MarkedOutcome(o: Outcome, id: Id, state: SM.State): Outcome {
    match o
    case Done(db) => Done(Marked(db, id, state))
    case Refused(code) => Refused(code)
  }

  lemma OutcomeCommutes(env: Env, db: Db, step: PR.Step, id: Id, state: SM.State)
    requires PR.Enabled(db, step) && PR.Enabled(Marked(db, id, state), step)
    requires PR.Attempt(env, Marked(db, id, state), step) == MarkedOutcome(PR.Attempt(env, db, step), id, state)
    ensures Commutes(env, db, step, id, state)
  {
    hide PR.Attempt, PR.Enabled, Marked;
  }

  lemma InvalidateMarked(items: map<Id, Item>, owners: set<Owner>, id: Id, state: SM.State)
    requires id in items && !Belongs(id, items[id], owners)
    ensures Invalidate(items[id := items[id].(state := state)], owners) ==
            Invalidate(items, owners)[id := items[id].(state := state)]
    ensures id in Invalidate(items, owners) && Invalidate(items, owners)[id] == items[id]
  {
  }

  lemma OwnerIsElsewhere(db: Db, owner: Owner, id: Id, state: SM.State)
    requires id in db.items && LO.ModelRow(db.items[id].model) !in OwnerLocks(db, Some(owner))
    ensures LockOwner(Marked(db, id, state), owner) == LockOwner(db, owner)
    ensures !Belongs(id, db.items[id], {owner})
    ensures OwnerLocks(Marked(db, id, state), Some(owner)) == OwnerLocks(db, Some(owner))
  {
  }

  lemma CreateCommutes(env: Env, db: Db, step: PR.Step, id: Id, state: SM.State)
    requires PR.Enabled(db, step) && Unneeded(db, step, id) && step.StepCreate?
    ensures Commutes(env, db, step, id, state)
  {
    hide ValidateValue, RejectValue, Accept, Publish, Validate, RecordEvent, Submit, ReviewApplicability,
        RejectEvidence;
    hide ChangeEvidence, AddModel, AddItem, AddEvidence, AddRequest, Ingest, OpenPortal, LinkEvidence, Needs, Put;
    hide Invalidate, LockOwner;
    NeedsAre(db, step);
    OwnerIsElsewhere(db, step.owner, id, state);
    InvalidateMarked(db.items, {step.owner}, id, state);
  }

  lemma ConfirmCommutes(env: Env, db: Db, v: Id, now: int, id: Id, state: SM.State)
    requires id in db.items && LO.ModelRow(db.items[id].model) !in OwnerLocks(db, OwnerAt(db, v))
    ensures ValidateValue(env, Marked(db, id, state), v, now) ==
            MarkedOutcome(ValidateValue(env, db, v, now), id, state)
    ensures RejectValue(Marked(db, id, state), v, now) == MarkedOutcome(RejectValue(db, v, now), id, state)
  {
    hide OwnerLocks, UsableEvidence, Invalidate, LockOwner;
    if v < |db.table.values| {
      var owner := db.table.values[v].owner;
      OwnerIsElsewhere(db, owner, id, state);
      InvalidateMarked(db.items, {owner}, id, state);
    }
  }

  lemma LinkCommutes(db: Db, evidence: Id, v: Id, id: Id, state: SM.State)
    requires id in db.items && LO.ModelRow(db.items[id].model) !in OwnerLocks(db, OwnerAt(db, v))
    ensures LinkEvidence(Marked(db, id, state), evidence, v) == MarkedOutcome(LinkEvidence(db, evidence, v), id, state)
  {
    hide OwnerLocks, Invalidate, LockOwner;
    if v < |db.table.values| {
      var owner := db.table.values[v].owner;
      OwnerIsElsewhere(db, owner, id, state);
      InvalidateMarked(db.items, {owner}, id, state);
    }
  }

  lemma ReviewedCommutes(env: Env, db: Db, step: PR.Step, id: Id, state: SM.State)
    requires PR.Enabled(db, step) && Unneeded(db, step, id) && (step.StepConfirm? || step.StepReject? || step.StepLink?)
    ensures Commutes(env, db, step, id, state)
  {
    hide CreateValue, Accept, Publish, Validate, RecordEvent, Submit, ReviewApplicability, RejectEvidence;
    hide ChangeEvidence, AddModel, AddItem, AddEvidence, AddRequest, Ingest, OpenPortal, Needs, Marked, Commutes;
    hide LinkEvidence, ValidateValue, RejectValue, Invalidate;
    NeedsAre(db, step);
    OutcomeEnabled(db, step, id, state);
    if step.StepLink? {
      LinkCommutes(db, step.evidence, step.value, id, state);
    } else {
      ConfirmCommutes(env, db, step.value, step.now, id, state);
    }
    OutcomeCommutes(env, db, step, id, state);
  }

  /** What may be attempted does not depend on an item's state. */
  lemma OutcomeEnabled(db: Db, step: PR.Step, id: Id, state: SM.State)
    requires PR.Enabled(db, step)
    ensures PR.Enabled(Marked(db, id, state), step)
  {
  }

  lemma AcceptOutcomeCommutes(db: Db, request: Id, listed: seq<Id>, now: int, id: Id, state: SM.State)
    requires request in db.requests ==> Ordered(db.requests[request].submissions, listed)
    requires id in db.items && (request in db.requests ==> db.requests[request].model != db.items[id].model)
    ensures Accept(Marked(db, id, state), request, listed, now) ==
            MarkedOutcome(Accept(db, request, listed, now), id, state)
  {
    hide Invalidate, AcceptAll, EvidenceIn;
    if request in db.requests {
      var model := db.requests[request].model;
      ModelIsElsewhere(db, model, id);
      InvalidateMarked(db.items, {OfModel(model)}, id, state);
    }
  }

  lemma AcceptCommutes(env: Env, db: Db, step: PR.Step, id: Id, state: SM.State)
    requires PR.Enabled(db, step) && Unneeded(db, step, id) && step.StepAccept?
    ensures Commutes(env, db, step, id, state)
  {
    hide CreateValue, ValidateValue, RejectValue, Publish, Validate, RecordEvent, Submit, ReviewApplicability;
    hide ChangeEvidence, AddModel, AddItem, AddEvidence, AddRequest, Ingest, OpenPortal, LinkEvidence, Needs;
    hide RejectEvidence, EvidenceLocks, Accept, Marked, Commutes;
    NeedsAre(db, step);
    OutcomeEnabled(db, step, id, state);
    AcceptOutcomeCommutes(db, step.request, step.listed, step.now, id, state);
    OutcomeCommutes(env, db, step, id, state);
  }

  lemma ModelIsElsewhere(db: Db, model: Id, id: Id)
    requires id in db.items
    ensures Belongs(id, db.items[id], {OfModel(model)}) <==> db.items[id].model == model
  {
  }

  lemma RejectionCommutes(env: Env, db: Db, step: PR.Step, id: Id, state: SM.State)
    requires PR.Enabled(db, step) && Unneeded(db, step, id) && step.StepRejectEvidence?
    ensures Commutes(env, db, step, id, state)
  {
    hide CreateValue, ValidateValue, RejectValue, Publish, Validate, RecordEvent, Submit, ReviewApplicability;
    hide ChangeEvidence, AddModel, AddItem, AddEvidence, AddRequest, Ingest, OpenPortal, LinkEvidence, Needs,
        Invalidate;
    hide Accept;
    NeedsAre(db, step);
    var owners := LinkedOwners(db.table, step.evidence);
    assert !Belongs(id, db.items[id], owners) by {
      LinkedElsewhere(db, step.evidence, id);
    }
    InvalidateMarked(db.items, owners, id, state);
  }

  lemma LinkedElsewhere(db: Db, evidence: Id, id: Id)
    requires id in db.items && LO.ModelRow(db.items[id].model) !in ModelLocks(LinkedGuards(db, evidence))
    ensures !Belongs(id, db.items[id], LinkedOwners(db.table, evidence))
  {
    LinkedLock(db, evidence, OfItem(id));
    LinkedLock(db, evidence, OfModel(db.items[id].model));
  }

  lemma LinkedLock(db: Db, evidence: Id, o: Owner)
    ensures o in LinkedOwners(db.table, evidence) && Guard(db, o).Some? ==>
              LO.ModelRow(Guard(db, o).value) in ModelLocks(LinkedGuards(db, evidence))
  {
    if o in LinkedOwners(db.table, evidence) && Guard(db, o).Some? {
      assert Guard(db, o).value in LinkedGuards(db, evidence);
    }
  }

  lemma ReviewCommutes(env: Env, db: Db, step: PR.Step, id: Id, state: SM.State)
    requires PR.Enabled(db, step) && Unneeded(db, step, id) && step.StepReview?
    ensures Commutes(env, db, step, id, state)
  {
    hide CreateValue, ValidateValue, RejectValue, Publish, Validate, RecordEvent, Submit, RejectEvidence;
    hide ChangeEvidence, AddModel, AddItem, AddEvidence, AddRequest, Ingest, OpenPortal, LinkEvidence, Needs,
        Invalidate;
    hide Accept, Applicability.Reviewed, Applicability.Complete;
    NeedsAre(db, step);
    ModelIsElsewhere(db, step.model, id);
    InvalidateMarked(db.items, {OfModel(step.model)}, id, state);
  }

  /** A step on another item. */
  lemma OtherItem(db: Db, step: PR.Step, id: Id)
    requires Unneeded(db, step, id) && PR.WritesOneItem(step) && !step.StepAddItem?
    ensures step.item != id
  {
    NeedsAre(db, step);
  }

  lemma UpiStaysTaken(db: Db, id: Id, state: SM.State, other: Id, upi: string)
    ensures UpiTaken(Marked(db, id, state), other, upi) == UpiTaken(db, other, upi)
  {
    var marked := Marked(db, id, state);
    assert forall k :: k in marked.items <==> k in db.items;
    assert forall k :: k in db.items ==> marked.items[k].upi == db.items[k].upi;
    if UpiTaken(db, other, upi) {
      var k :| k in db.items && k != other && db.items[k].upi == Some(upi);
      assert k in marked.items && marked.items[k].upi == Some(upi);
    }
  }

  lemma PublishableMarked(env: Env, db: Db, id: Id, state: SM.State, other: Id, now: int)
    requires HasModel(db, other) && other != id
    ensures HasModel(Marked(db, id, state), other)
    ensures Publishable(env, Marked(db, id, state), other, now) == Publishable(env, db, other, now)
  {
    hide Publishable;
    SamePublishable(env, db, Marked(db, id, state), other, now);
  }

  lemma EventCommutes(db: Db, item: Id, kind: EventKind, newStatus: Option<Lifecycle>, previous: Option<nat>,
                      id: Id, state: SM.State)
    requires id in db.items && item != id
    ensures RecordEvent(Marked(db, id, state), item, kind, newStatus, previous) ==
            MarkedOutcome(RecordEvent(db, item, kind, newStatus, previous), id, state)
  {
    hide Noted, Marked;
    ItemMarked(db, item, id, state);
    RestMarked(db, id, state);
    if item in db.items {
      ItemReplaced(db, item, Noted(db.items[item], kind), id, state);
    }
  }

  lemma IngestCommutes(db: Db, item: Id, readings: seq<Json>, id: Id, state: SM.State)
    requires id in db.items && item != id
    ensures Ingest(Marked(db, id, state), item, readings) == MarkedOutcome(Ingest(db, item, readings), id, state)
  {
    hide Marked;
    ItemMarked(db, item, id, state);
    RestMarked(db, id, state);
    if item in db.items {
      var read := db.items[item].(readings := db.items[item].readings + readings);
      ItemReplaced(db, item, InvalidatedItem(read), id, state);
    }
  }

  /** Another item is as it was. */
  lemma ItemMarked(db: Db, item: Id, id: Id, state: SM.State)
    requires id in db.items && item != id
    ensures LockItem(Marked(db, id, state), item) == LockItem(db, item)
    ensures item in Marked(db, id, state).items <==> item in db.items
    ensures item in db.items ==> Marked(db, id, state).items[item] == db.items[item]
  {
  }

  /** Marking one item and replacing another may be done in either order. */
  lemma ItemReplaced(db: Db, item: Id, after: Item, id: Id, state: SM.State)
    requires id in db.items && item != id
    ensures Marked(db.(items := db.items[item := after]), id, state) ==
            db.(items := Marked(db, id, state).items[item := after])
  {
    assert db.items[item := after][id := db.items[id].(state := state)] ==
           db.items[id := db.items[id].(state := state)][item := after];
  }

  lemma ValidateCommutes(env: Env, db: Db, item: Id, now: int, id: Id, state: SM.State)
    requires id in db.items && item != id
    ensures Validate(env, Marked(db, id, state), item, now) == MarkedOutcome(Validate(env, db, item, now), id, state)
  {
    hide Publishable, Marked;
    ItemMarked(db, item, id, state);
    RestMarked(db, id, state);
    if HasModel(db, item) {
      PublishableMarked(env, db, id, state, item, now);
      var validated := SM.Validated(db.items[item].state, Publishable(env, db, item, now));
      ItemReplaced(db, item, db.items[item].(state := validated), id, state);
    }
  }

  lemma RestMarked(db: Db, id: Id, state: SM.State)
    ensures Marked(db, id, state) == db.(items := Marked(db, id, state).items)
  {
  }

  lemma PublishCommutes(env: Env, db: Db, item: Id, now: int, generatedAt: string, ruleSet: string,
                        order: Id -> seq<Id>, id: Id, state: SM.State)
    requires id in db.items && item != id
    ensures Publish(env, Marked(db, id, state), item, now, generatedAt, ruleSet, order) ==
            MarkedOutcome(Publish(env, db, item, now, generatedAt, ruleSet, order), id, state)
  {
    hide Publishable, Marked, UpiTaken, DocValues, WithVersion;
    ItemMarked(db, item, id, state);
    RestMarked(db, id, state);
    if HasModel(db, item) {
      PublishableMarked(env, db, id, state, item, now);
      UpiStaysTaken(db, id, state, item, UpiOf(env, db.items[item]));
      var doc := NextDocument(env, db, item, generatedAt, ruleSet, order);
      ItemReplaced(db, item, WithVersion(env, db.items[item], doc, now), id, state);
    }
  }

  lemma ItemCommutes(env: Env, db: Db, step: PR.Step, id: Id, state: SM.State)
    requires PR.Enabled(db, step) && Unneeded(db, step, id)
    requires step.StepEvent? || step.StepIngest? || step.StepValidate? || step.StepPublish?
    ensures Commutes(env, db, step, id, state)
  {
    hide CreateValue, ValidateValue, RejectValue, Accept, Submit, ReviewApplicability, RejectEvidence, LinkEvidence;
    hide OpenPortal, ChangeEvidence, AddModel, AddEvidence, AddRequest, AddItem, Needs, Marked, Commutes;
    hide RecordEvent, Ingest, Validate, Publish;
    OtherItem(db, step, id);
    OutcomeEnabled(db, step, id, state);
    match step
    case StepEvent(item, kind, newStatus, previous) =>
      EventCommutes(db, item, kind, newStatus, previous, id, state);
      OutcomeCommutes(env, db, step, id, state);
    case StepIngest(item, readings) =>
      IngestCommutes(db, item, readings, id, state);
      OutcomeCommutes(env, db, step, id, state);
    case StepValidate(item, now) =>
      ValidateCommutes(env, db, item, now, id, state);
      OutcomeCommutes(env, db, step, id, state);
    case StepPublish(item, now, generatedAt, ruleSet, order) =>
      PublishCommutes(env, db, item, now, generatedAt, ruleSet, order, id, state);
      OutcomeCommutes(env, db, step, id, state);
    case _ =>
  }

  lemma RowCommutes(env: Env, db: Db, step: PR.Step, id: Id, state: SM.State)
    requires PR.Enabled(db, step) && Unneeded(db, step, id)
    requires step.StepChangeEvidence? || step.StepSubmit? || step.StepOpen? || step.StepAddModel?
             || step.StepAddEvidence? || step.StepAddRequest?
    ensures Commutes(env, db, step, id, state)
  {
    hide CreateValue, ValidateValue, RejectValue, Accept, ReviewApplicability, RejectEvidence, LinkEvidence, AddItem;
    hide Publish, Validate, RecordEvent, Ingest, Needs, FirstProblem, WithPosted;
  }

  lemma AddedItemCommutes(db: Db, item: Id, model: Id, publicId: string, serial: string, batch: Option<string>,
                          upi: Option<string>, manufactured: Option<int>, id: Id, state: SM.State)
    requires id in db.items
    ensures AddItem(Marked(db, id, state), item, model, publicId, serial, batch, upi, manufactured) ==
            MarkedOutcome(AddItem(db, item, model, publicId, serial, batch, upi, manufactured), id, state)
  {
    hide Marked, UpiTaken;
    RestMarked(db, id, state);
    if item != id {
      var added := Item(model, publicId, serial, batch, upi, manufactured, Original, SM.Draft, [], [], [], []);
      ItemMarked(db, item, id, state);
      ItemReplaced(db, item, added, id, state);
    } else {
      SameKeys(db, id, state);
    }
    if upi.Some? {
      UpiStaysTaken(db, id, state, item, upi.value);
    }
  }

  lemma SameKeys(db: Db, id: Id, state: SM.State)
    ensures Marked(db, id, state).items.Keys == db.items.Keys
  {
  }

  lemma AddItemCommutes(env: Env, db: Db, step: PR.Step, id: Id, state: SM.State)
    requires PR.Enabled(db, step) && Unneeded(db, step, id) && step.StepAddItem?
    ensures Commutes(env, db, step, id, state)
  {
    hide CreateValue, ValidateValue, RejectValue, Accept, ReviewApplicability, RejectEvidence, LinkEvidence, AddModel;
    hide Publish, Validate, RecordEvent, Ingest, Needs, Submit, OpenPortal, ChangeEvidence, AddEvidence, AddRequest;
    hide AddItem, Marked, Commutes;
    OutcomeEnabled(db, step, id, state);
    AddedItemCommutes(db, step.item, step.model, step.publicId, step.serial, step.batch, step.upi, step.manufactured,
                      id, state);
    OutcomeCommutes(env, db, step, id, state);
  }

  lemma StepCommutes(env: Env, db: Db, step: PR.Step, id: Id, state: SM.State)
    requires PR.Enabled(db, step) && Unneeded(db, step, id)
    ensures Commutes(env, db, step, id, state)
  {
    hide Commutes, Unneeded, PR.Enabled;
    match step
    case StepCreate(_, _, _, _, _, _) => CreateCommutes(env, db, step, id, state);
    case StepConfirm(_, _) => ReviewedCommutes(env, db, step, id, state);
    case StepReject(_, _) => ReviewedCommutes(env, db, step, id, state);
    case StepLink(_, _) => ReviewedCommutes(env, db, step, id, state);
    case StepRejectEvidence(_) => RejectionCommutes(env, db, step, id, state);
    case StepAccept(_, _, _) => AcceptCommutes(env, db, step, id, state);
    case StepEvent(_, _, _, _) => ItemCommutes(env, db, step, id, state);
    case StepIngest(_, _) => ItemCommutes(env, db, step, id, state);
    case StepValidate(_, _) => ItemCommutes(env, db, step, id, state);
    case StepPublish(_, _, _, _, _) => ItemCommutes(env, db, step, id, state);
    case StepReview(_, _, _, _) => ReviewCommutes(env, db, step, id, state);
    case StepAddItem(_, _, _, _, _, _, _) => AddItemCommutes(env, db, step, id, state);
    case _ => RowCommutes(env, db, step, id, state);
  }

  // ---- putting a step into a run ----

  /**
   At place `m` of the run the item could be locked and was found wanting, and no
   later step needed its model's lock.
   */
  ghost predicate OpenAt(env: Env, dbs: seq<Db>, steps: seq<PR.Step>, m: nat, id: Id, now: int, item: Item)
    requires |dbs| == |steps| + 1
  {
    && m < |dbs| && LockItem(dbs[m], id).None? && dbs[m].items[id] == item && !Publishable(env, dbs[m], id, now)
    && forall k :: m <= k < |steps| ==> LO.ModelRow(item.model) !in Needs(dbs[k], steps[k])
  }

  lemma {:induction false} RunOwners(env: Env, dbs: seq<Db>, steps: seq<PR.Step>, n: nat)
    requires PR.IsRun(env, dbs, steps) && n < |dbs|
    ensures OwnersKnown(dbs[n])
  {
    hide PR.Apply, PR.Enabled, Needs;
    if n > 0 {
      RunOwners(env, dbs, steps, n - 1);
      StepStable(env, dbs[n - 1], steps[n - 1], {});
    }
  }

  lemma ItemStays(env: Env, db: Db, step: PR.Step, id: Id)
    requires PR.Enabled(db, step) && OwnersKnown(db) && Unneeded(db, step, id)
    ensures id in PR.Apply(env, db, step).items && PR.Apply(env, db, step).items[id] == db.items[id]
  {
    hide Needs, PR.Apply, PR.Enabled, OwnersKnown;
    StepStable(env, db, step, {LO.ModelRow(db.items[id].model)});
  }

  lemma {:induction false} ItemSince(env: Env, dbs: seq<Db>, steps: seq<PR.Step>, m: nat, k: nat, id: Id, now: int,
                                     item: Item)
    requires PR.IsRun(env, dbs, steps) && OpenAt(env, dbs, steps, m, id, now, item) && m <= k < |dbs|
    ensures id in dbs[k].items && dbs[k].items[id] == item
    decreases k
  {
    hide PR.Apply, PR.Enabled, Needs, Publishable, OwnersKnown;
    if m < k {
      ItemSince(env, dbs, steps, m, k - 1, id, now, item);
      RunOwners(env, dbs, steps, k - 1);
      ItemStays(env, dbs[k - 1], steps[k - 1], id);
    }
  }

  function InsertedDbs(dbs: seq<Db>, m: nat, id: Id, state: SM.State): (r: seq<Db>)
    requires m < |dbs|
    ensures |r| == |dbs| + 1 && r[|dbs|] == Marked(dbs[|dbs| - 1], id, state)
  {
    dbs[..m + 1] + seq(|dbs| - m, k requires 0 <= k < |dbs| - m => Marked(dbs[m + k], id, state))
  }

  function InsertedSteps(steps: seq<PR.Step>, m: nat, step: PR.Step): (r: seq<PR.Step>)
    requires m <= |steps|
    ensures |r| == |steps| + 1
  {
    steps[..m] + [step] + steps[m..]
  }

  lemma WantingStep(env: Env, db: Db, id: Id, now: int)
    requires LockItem(db, id).None? && !Publishable(env, db, id, now)
    ensures PR.Enabled(db, PR.StepValidate(id, now))
    ensures PR.Apply(env, db, PR.StepValidate(id, now)) == Marked(db, id, SM.Validated(db.items[id].state, false))
    ensures Needs(db, PR.StepValidate(id, now)) == {LO.ModelRow(db.items[id].model)}
  {
    hide Publishable, Needs;
    NeedsAre(db, PR.StepValidate(id, now));
  }

  /** The validation put where it was open makes a run, which ends with the item as the validation leaves it. */
  lemma InsertedIsRun(env: Env, dbs: seq<Db>, steps: seq<PR.Step>, m: nat, id: Id, now: int, item: Item)
    requires PR.IsRun(env, dbs, steps) && OpenAt(env, dbs, steps, m, id, now, item)
    ensures var state := SM.Validated(item.state, false);
            PR.IsRun(env, InsertedDbs(dbs, m, id, state), InsertedSteps(steps, m, PR.StepValidate(id, now)))
  {
    hide PR.Apply, PR.Enabled, Needs, Publishable, OwnersKnown, Marked, LockItem;
    var state, step := SM.Validated(item.state, false), PR.StepValidate(id, now);
    var newDbs, newSteps := InsertedDbs(dbs, m, id, state), InsertedSteps(steps, m, step);
    forall i | 0 <= i < |newSteps|
      ensures PR.Enabled(newDbs[i], newSteps[i]) && newDbs[i + 1] == PR.Apply(env, newDbs[i], newSteps[i])
    {
      if i == m {
        WantingStep(env, dbs[m], id, now);
      } else if m < i {
        ItemSince(env, dbs, steps, m, i - 1, id, now, item);
        StepCommutes(env, dbs[i - 1], steps[i - 1], id, state);
      }
    }
  }

  // ---- validations under way ----

  lemma GuardsMarked(db: Db, evidence: Id, id: Id, state: SM.State)
    ensures LinkedGuards(Marked(db, id, state), evidence) == LinkedGuards(db, evidence)
  {
    var marked := Marked(db, id, state);
    assert LinkedOwners(marked.table, evidence) == LinkedOwners(db.table, evidence);
    assert forall o :: Guard(marked, o) == Guard(db, o);
  }

  lemma NeedsMarked(db: Db, step: PR.Step, id: Id, state: SM.State)
    ensures Needs(Marked(db, id, state), step) == Needs(db, step)
  {
    hide Needs, EvidenceLocks, ModelLocks, EvidenceIn;
    NeedsAre(db, step);
    NeedsAre(Marked(db, id, state), step);
    if step.StepRejectEvidence? {
      GuardsMarked(db, step.evidence, id, state);
    }
  }

  lemma OpenAppends(env: Env, dbs: seq<Db>, steps: seq<PR.Step>, m: nat, id: Id, now: int, item: Item, step: PR.Step,
                    after: Db)
    requires |dbs| == |steps| + 1 && OpenAt(env, dbs, steps, m, id, now, item)
    requires LO.ModelRow(item.model) !in Needs(dbs[|dbs| - 1], step)
    ensures OpenAt(env, dbs + [after], steps + [step], m, id, now, item)
  {
    hide Needs, Publishable, LockItem;
  }

  /** Putting in one validation leaves room for those of other models. */
  lemma OpenShifts(env: Env, dbs: seq<Db>, steps: seq<PR.Step>, m: nat, id: Id, now: int, item: Item,
                   k: nat, other: Id, at: int, held: Item)
    requires |dbs| == |steps| + 1 && OpenAt(env, dbs, steps, m, id, now, item)
    requires OpenAt(env, dbs, steps, k, other, at, held) && held.model != item.model && other != id
    ensures var state := SM.Validated(item.state, false);
            OpenAt(env, InsertedDbs(dbs, m, id, state), InsertedSteps(steps, m, PR.StepValidate(id, now)),
                   if k <= m then k else k + 1, other, at, held)
  {
    hide Needs, Publishable, Marked, LockItem;
    var state, step := SM.Validated(item.state, false), PR.StepValidate(id, now);
    var newDbs, newSteps := InsertedDbs(dbs, m, id, state), InsertedSteps(steps, m, step);
    var place := if k <= m then k else k + 1;
    if m < k {
      MarkedElsewhere(env, dbs[k], id, state, other, at);
    }
    forall i | place <= i < |newSteps| ensures LO.ModelRow(held.model) !in Needs(newDbs[i], newSteps[i]) {
      if i == m {
        WantingStep(env, dbs[m], id, now);
      } else if m < i {
        NeedsMarked(dbs[i - 1], steps[i - 1], id, state);
      }
    }
  }

  lemma MarkedElsewhere(env: Env, db: Db, id: Id, state: SM.State, other: Id, at: int)
    requires other != id && LockItem(db, other).None?
    ensures var marked := Marked(db, id, state);
            && LockItem(marked, other).None? && marked.items[other] == db.items[other]
            && Publishable(env, marked, other, at) == Publishable(env, db, other, at)
  {
    hide Publishable;
    PublishableMarked(env, db, id, state, other, at);
  }

  /** A validation that found its item wanting and has not written yet. */
  ghost predicate Pending(env: Env, tx: Tx) {
    && tx.Writer? && tx.seen.Some? && tx.step.StepValidate?
    && HasModel(tx.seen.value, tx.step.item) && !Publishable(env, tx.seen.value, tx.step.item, tx.step.now)
  }

  /** The item as a pending validation read it. */
  ghost function ItemRead(env: Env, tx: Tx): Item
    requires Pending(env, tx)
  {
    tx.seen.value.items[tx.step.item]
  }

  /** Each pending validation has its place in the run. */
  ghost predicate Placed(env: Env, dbs: seq<Db>, steps: seq<PR.Step>, at: map<Id, nat>, txs: map<Id, Tx>)
    requires |dbs| == |steps| + 1
  {
    forall t :: t in txs ==> HasPlace(env, dbs, steps, at, t, txs[t])
  }

  ghost predicate HasPlace(env: Env, dbs: seq<Db>, steps: seq<PR.Step>, at: map<Id, nat>, t: Id, tx: Tx)
    requires |dbs| == |steps| + 1
  {
    Pending(env, tx) ==> t in at && OpenAt(env, dbs, steps, at[t], tx.step.item, tx.step.now, ItemRead(env, tx))
  }

  lemma PendingIsHeld(env: Env, db: Db, tx: Tx)
    requires TxOk(env, db, tx) && Pending(env, tx)
    ensures LO.ModelRow(ItemRead(env, tx).model) in HeldLocks(tx)
    ensures HasModel(db, tx.step.item) && db.items[tx.step.item] == ItemRead(env, tx)
    ensures LockItem(db, tx.step.item).None?
  {
    hide Publishable, Decided, PR.Enabled, PR.Attempt, Needs, LockItem;
    ItemIsHeld(env, tx.seen.value, db, tx.step, tx.locks);
  }

  lemma AppendPlaced(env: Env, s: State, t: Id, dbs: seq<Db>, steps: seq<PR.Step>, at: map<Id, nat>, step: PR.Step,
                     after: Db)
    requires Inv(env, s) && |dbs| == |steps| + 1 && dbs[|steps|] == s.db && Placed(env, dbs, steps, at, s.txs)
    requires t in s.txs && Needs(s.db, step) <= HeldLocks(s.txs[t])
    ensures Placed(env, dbs + [after], steps + [step], at, s.txs - {t})
  {
    hide Needs, Publishable, HeldLocks, OpenAt, TxOk, PI.Inv, OwnersKnown;
    forall u | u in s.txs - {t} ensures HasPlace(env, dbs + [after], steps + [step], at, u, s.txs[u]) {
      var tx := s.txs[u];
      assert HasPlace(env, dbs, steps, at, u, tx);
      if Pending(env, tx) {
        PendingIsHeld(env, s.db, tx);
        assert HeldLocks(tx) !! HeldLocks(s.txs[t]);
        OpenAppends(env, dbs, steps, at[u], tx.step.item, tx.step.now, ItemRead(env, tx), step, after);
      }
    }
  }

  ghost function Shifted(at: map<Id, nat>, m: nat): map<Id, nat> {
    map u | u in at :: if at[u] <= m then at[u] else at[u] + 1
  }

  lemma InsertPlaced(env: Env, s: State, t: Id, dbs: seq<Db>, steps: seq<PR.Step>, at: map<Id, nat>)
    requires Inv(env, s) && |dbs| == |steps| + 1 && Placed(env, dbs, steps, at, s.txs)
    requires t in s.txs && Pending(env, s.txs[t])
    ensures t in at && at[t] < |dbs|
    ensures var item, step := ItemRead(env, s.txs[t]), s.txs[t].step;
            var state := SM.Validated(item.state, false);
            Placed(env, InsertedDbs(dbs, at[t], step.item, state), InsertedSteps(steps, at[t], step),
                   Shifted(at, at[t]), s.txs - {t})
  {
    hide Needs, Publishable, HeldLocks, TxOk, PI.Inv, OwnersKnown, InsertedDbs, InsertedSteps;
    var item, step := ItemRead(env, s.txs[t]), s.txs[t].step;
    var state := SM.Validated(item.state, false);
    assert HasPlace(env, dbs, steps, at, t, s.txs[t]);
    var newDbs, newSteps := InsertedDbs(dbs, at[t], step.item, state), InsertedSteps(steps, at[t], step);
    forall u | u in s.txs - {t} ensures HasPlace(env, newDbs, newSteps, Shifted(at, at[t]), u, s.txs[u]) {
      var tx := s.txs[u];
      assert HasPlace(env, dbs, steps, at, u, tx);
      if Pending(env, tx) {
        PendingIsHeld(env, s.db, tx);
        PendingIsHeld(env, s.db, s.txs[t]);
        assert HeldLocks(tx) !! HeldLocks(s.txs[t]);
        OpenShifts(env, dbs, steps, at[t], step.item, step.now, item,
                   at[u], tx.step.item, tx.step.now, ItemRead(env, tx));
      }
    }
  }

  // ---- main result ----

  lemma FinishSerialised(env: Env, s: State, t: Id, dbs: seq<Db>, steps: seq<PR.Step>, at: map<Id, nat>)
    returns (newDbs: seq<Db>, newSteps: seq<PR.Step>, newAt: map<Id, nat>)
    requires Inv(env, s) && Enabled(env, s, FinishWrite(t))
    requires PR.IsRun(env, dbs, steps) && dbs[|steps|] == s.db && Placed(env, dbs, steps, at, s.txs)
    ensures PR.IsRun(env, newDbs, newSteps) && newDbs[|newSteps|] == Finished(env, s, t)
    ensures Placed(env, newDbs, newSteps, newAt, s.txs - {t})
  {
    hide Needs, Publishable, OpenAt, TxOk, PI.Inv, OwnersKnown, InsertedDbs, InsertedSteps, Finished, PR.Apply;
    hide PR.Enabled, PR.Attempt, HeldItem, LockItem, UpiTaken, ItemRead, Decided;
    var w := s.txs[t];
    if Stale(env, s.db, w) {
      StaleRows(env, s, t);
      StaleIsPending(env, s.db, w);
      PendingIsHeld(env, s.db, w);
      InsertPlaced(env, s, t, dbs, steps, at);
      var item := ItemRead(env, w);
      var state := SM.Validated(item.state, false);
      assert HasPlace(env, dbs, steps, at, t, w);
      InsertedIsRun(env, dbs, steps, at[t], w.step.item, w.step.now, item);
      newDbs, newSteps := InsertedDbs(dbs, at[t], w.step.item, state), InsertedSteps(steps, at[t], w.step);
      newAt := Shifted(at, at[t]);
    } else if !IsStatement(w.step) && Refusing(env, s.db, w) {
      RefusedRows(env, s, t);
      newDbs, newSteps, newAt := dbs, steps, at;
    } else {
      var step := WriteIsWhole(env, s, t);
      WriterLocks(w);
      AppendPlaced(env, s, t, dbs, steps, at, step, PR.Apply(env, s.db, step));
      PR.RunExtends(env, dbs, steps, step);
      newDbs, newSteps, newAt := dbs + [PR.Apply(env, s.db, step)], steps + [step], at;
    }
  }

  lemma RefusedRows(env: Env, s: State, t: Id)
    requires Enabled(env, s, FinishWrite(t)) && !IsStatement(s.txs[t].step) && Refusing(env, s.db, s.txs[t])
    ensures Finished(env, s, t) == s.db
  {
  }

  lemma StaleIsPending(env: Env, db: Db, w: Tx)
    requires w.Writer? && Stale(env, db, w)
    ensures Pending(env, w)
  {
    hide Publishable;
  }

  lemma RejectionApplied(env: Env, db: Db, target: Id, after: Db)
    requires RejectEvidence(db, target) == Done(after)
    ensures PR.Enabled(db, PR.StepRejectEvidence(target)) && PR.Apply(env, db, PR.StepRejectEvidence(target)) == after
  {
    hide RejectEvidence;
  }

  lemma RejectionSerialised(env: Env, s: State, t: Id, dbs: seq<Db>, steps: seq<PR.Step>, at: map<Id, nat>)
    returns (newDbs: seq<Db>, newSteps: seq<PR.Step>)
    requires Inv(env, s) && Enabled(env, s, CommitRejection(t))
    requires PR.IsRun(env, dbs, steps) && dbs[|steps|] == s.db && Placed(env, dbs, steps, at, s.txs)
    ensures PR.IsRun(env, newDbs, newSteps)
    ensures newDbs[|newSteps|] == RejectedRows(s.db, s.txs[t].target, s.txs[t].phase.seen)
    ensures Placed(env, newDbs, newSteps, at, s.txs - {t})
  {
    hide Needs, Publishable, OpenAt, TxOk, PI.Inv, OwnersKnown, HeldLocks, ItemRead, RejectEvidence, RejectedRows;
    hide PR.Apply, PR.Enabled, PR.Attempt;
    var step := PR.StepRejectEvidence(s.txs[t].target);
    RejectionIsWhole(env, s, t);
    RejectionApplied(env, s.db, s.txs[t].target, RejectedRows(s.db, s.txs[t].target, s.txs[t].phase.seen));
    AppendPlaced(env, s, t, dbs, steps, at, step, PR.Apply(env, s.db, step));
    PR.RunExtends(env, dbs, steps, step);
    newDbs, newSteps := dbs + [PR.Apply(env, s.db, step)], steps + [step];
  }

  /** A validation that decides now is open at the end of the run. */
  lemma DecidingIsOpen(env: Env, s: State, move: Move, dbs: seq<Db>, steps: seq<PR.Step>)
    requires Enabled(env, s, move) && move.Decide? && |dbs| == |steps| + 1 && dbs[|steps|] == s.db
    requires Pending(env, Apply(env, s, move).txs[move.tx])
    ensures var tx := Apply(env, s, move).txs[move.tx];
            OpenAt(env, dbs, steps, |steps|, tx.step.item, tx.step.now, ItemRead(env, tx))
  {
    hide Needs, Publishable;
    DoneIsOpen(env, s.db, s.txs[move.tx].step);
  }

  lemma DoneIsOpen(env: Env, db: Db, step: PR.Step)
    requires PR.Enabled(db, step) && step.StepValidate? && PR.Attempt(env, db, step).Done?
    ensures LockItem(db, step.item).None?
  {
    hide Publishable;
  }

  lemma OtherMovesPlaced(env: Env, s: State, move: Move, dbs: seq<Db>, steps: seq<PR.Step>, at: map<Id, nat>)
    returns (newAt: map<Id, nat>)
    requires Enabled(env, s, move) && !move.FinishWrite? && !move.CommitRejection?
    requires |dbs| == |steps| + 1 && dbs[|steps|] == s.db && Placed(env, dbs, steps, at, s.txs)
    ensures Apply(env, s, move).db == s.db && Placed(env, dbs, steps, newAt, Apply(env, s, move).txs)
  {
    hide OpenAt, ItemRead, Enabled, Apply, Pending;
    RowsMove(env, s, move);
    newAt := if move.Decide? then at[move.tx := |steps|] else at;
    var after := Apply(env, s, move).txs;
    forall u | u in after ensures HasPlace(env, dbs, steps, newAt, u, after[u]) {
      if u != move.tx {
        OnlyOneMoves(env, s, move, u);
        assert HasPlace(env, dbs, steps, at, u, s.txs[u]);
      } else if !move.Decide? {
        OnlyDecideDecides(env, s, move);
      } else if Pending(env, after[u]) {
        DecidingIsOpen(env, s, move, dbs, steps);
      }
    }
  }

  lemma OnlyDecideDecides(env: Env, s: State, move: Move)
    requires Enabled(env, s, move) && !move.Decide? && move.tx in Apply(env, s, move).txs
    ensures !Pending(env, Apply(env, s, move).txs[move.tx])
  {
    hide PR.Apply, PR.Attempt, PR.Enabled, Needs, Publishable, Linked, GuardsOf, Written;
  }

  /**
   In every run of interleaved transactions there is a run of whole steps, one after
   the other, that ends with the same rows.
   */
  lemma {:induction false} RefinesRuns(env: Env, states: seq<State>, moves: seq<Move>, n: nat)
    returns (dbs: seq<Db>, steps: seq<PR.Step>, at: map<Id, nat>)
    requires IsRun(env, states, moves) && n < |states|
    ensures PR.IsRun(env, dbs, steps) && dbs[|steps|] == states[n].db && Placed(env, dbs, steps, at, states[n].txs)
  {
    hide Apply, Enabled, PR.Apply, PR.Enabled, Inv, OpenAt, Pending;
    if n == 0 {
      return [PR.EMPTY], [], map[];
    }
    dbs, steps, at := RefinesRuns(env, states, moves, n - 1);
    var s, move := states[n - 1], moves[n - 1];
    RunInv(env, states, moves, n - 1);
    RowsMove(env, s, move);
    if move.FinishWrite? {
      dbs, steps, at := FinishSerialised(env, s, move.tx, dbs, steps, at);
    } else if move.CommitRejection? {
      RejectionMoves(env, s, move.tx);
      dbs, steps := RejectionSerialised(env, s, move.tx, dbs, steps, at);
    } else {
      at := OtherMovesPlaced(env, s, move, dbs, steps, at);
    }
  }

  lemma RejectionMoves(env: Env, s: State, t: Id)
    requires Enabled(env, s, CommitRejection(t))
    ensures Apply(env, s, CommitRejection(t)) ==
            State(RejectedRows(s.db, s.txs[t].target, s.txs[t].phase.seen), s.txs - {t})
  {
    hide PR.Apply, PR.Attempt, PR.Enabled, Needs, RejectedRows, Written;
  }

  /** What was proved of runs of whole steps holds here too: the export accepts every history. */
  lemma HistoriesAreAccepted(env: Env, states: seq<State>, moves: seq<Move>, n: nat, id: Id, rows: seq<PH.Stored>,
                             isUuid: string -> bool, k: nat)
    requires IsRun(env, states, moves) && n < |states| && id in states[n].db.items && PH.SpellsWell(env, isUuid)
    requires var versions := states[n].db.items[id].versions;
             |rows| == |versions| && forall j :: 0 <= j < |rows| ==> PH.ReadBack(env, versions[j], rows[j])
    requires k < |rows|
    ensures var item := states[n].db.items[id];
            PH.RowOk(rows, k, PH.Subject(env.idText(id), env.idText(item.model), item.publicId, isUuid))
  {
    hide IsRun, PH.SpellsWell, PH.ReadBack, PH.RowOk, PR.Apply, PR.Enabled, Placed;
    var dbs, steps, at := RefinesRuns(env, states, moves, n);
    PH.EveryHistoryIsAccepted(env, dbs, steps, |steps|, id, rows, isUuid, k);
  }
}
