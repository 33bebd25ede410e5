/**
 An endpoint's transaction in two moves: it reads under its locks and decides, and
 later writes what it decided, over whatever the rows have become since.
 */
module Transactions {
  import opened Prelude
  import opened CanonicalJson
  import opened Catalogue
  import opened Readiness
  import opened Applicability
  import opened PassportValues
  import opened PassportTables
  import opened PassportSteps
  import opened Footprint
  import opened Stability
  import PR = PassportRuns
  import LO = LockOrder
  import SM = StateMachine

  /** A single statement, which checks its own condition against the rows it finds: an insert or a compare-and-set. */
  predicate IsStatement(step: PR.Step) {
    step.StepAddModel? || step.StepAddItem? || step.StepAddEvidence? || step.StepAddRequest? || step.StepChangeEvidence?
  }

  /** `seen` still has room for what the decision refers to. */
  predicate Fits(seen: Db, db: Db) {
    |seen.table.values| <= |db.table.values|
  }

  /** The row of a value that ends the one current when it was looked up. */
  function Replaced(seen: Values, values: Values, owner: Owner, field: int, json: Json, unit: Option<string>,
                    source: Source, now: int): Values
    requires |seen| <= |values|
  {
    var prior := CurrentId(seen, owner, field);
    (if prior.Some? then Close(values, prior.value, Superseded, now) else values) +
    [Value(owner, field, json, unit, source, Unvalidated, None, prior)]
  }

  /** What is left of an item's columns and of a request's are the values read. */
  ghost function Written(env: Env, seen: Db, db: Db, step: PR.Step): Db
    requires PR.Enabled(seen, step) && PR.Attempt(env, seen, step).Done? && Fits(seen, db)
  {
    match step
    case StepCreate(owner, field, json, unit, source, now) =>
      var values := Replaced(seen.table.values, db.table.values, owner, field, json, unit, source, now);
      db.(table := db.table.(values := values), items := Invalidate(db.items, {owner}))
    case StepConfirm(id, now) =>
      var v := seen.table.values[id];
      db.(table := db.table.(values := Confirm(db.table.values, id)),
          items := if v.status == Validated then db.items else Invalidate(db.items, {v.owner}))
    case StepReject(id, now) =>
      db.(table := db.table.(values := Close(db.table.values, id, Rejected, now)),
          items := Invalidate(db.items, {seen.table.values[id].owner}))
    case StepLink(evidence, id) =>
      db.(table := db.table.(links := db.table.links + {Link(evidence, id)}),
          items := Invalidate(db.items, {seen.table.values[id].owner}))
    case StepSubmit(request, body, _) =>
      var r := seen.requests[request];
      var submitted := r.(submissions := WithPosted(r.submissions, body), status := SubmittedRequest);
      db.(requests := db.requests[request := submitted])
    case StepOpen(request, _) =>
      var r := seen.requests[request];
      db.(requests := db.requests[request :=
        if r.status == DraftRequest || r.status == Sent then r.(status := OpenedRequest) else r])
    case StepAccept(request, listed, now) =>
      var r := seen.requests[request];
      db.(table := AcceptAll(db.table, r.model, Listed(r.submissions, listed), now),
          requests := db.requests[request := r.(status := AcceptedRequest)],
          items := Invalidate(db.items, {OfModel(r.model)}))
    case StepEvent(id, kind, _, _) => db.(items := db.items[id := Noted(seen.items[id], kind)])
    case StepIngest(id, readings) =>
      var item := seen.items[id];
      db.(items := db.items[id := InvalidatedItem(item.(readings := item.readings + readings))])
    case StepReview(model, decisions, actor, at) =>
      var m := seen.models[model];
      var context := Reviewed(env.rules, m.category, m.context, decisions, actor, at);
      db.(models := db.models[model := m.(context := context)], items := Invalidate(db.items, {OfModel(model)}))
    case StepValidate(id, now) =>
      var item := seen.items[id];
      db.(items := db.items[id := item.(state := SM.Validated(item.state, Publishable(env, seen, id, now)))])
    case StepPublish(id, now, generatedAt, ruleSet, order) =>
      var doc := NextDocument(env, seen, id, generatedAt, ruleSet, order);
      db.(items := db.items[id := WithVersion(env, seen.items[id], doc, now)])
    case _ => PR.Apply(env, db, step)
  }

  // ---- what was read under a lock is still so ----

  lemma CurrentStays(a: Db, b: Db, locks: set<Lock>, owner: Owner, field: int)
    requires OwnersKnown(a) && Stable(a, b, locks) && Held(a, owner, locks)
    requires OneCurrent(a.table.values) && OneCurrent(b.table.values)
    ensures CurrentId(b.table.values, owner, field) == CurrentId(a.table.values, owner, field)
    ensures var id := CurrentId(a.table.values, owner, field);
            id.Some? ==> b.table.values[id.value] == a.table.values[id.value]
  {
    HeldStays(a, b, locks, owner);
    SameCurrent(a.table.values, b.table.values, owner, field);
  }

  /** An item and its model, both guarded by the model's lock. */
  predicate HeldItem(db: Db, id: Id, locks: set<Lock>) {
    HasModel(db, id) && LO.ModelRow(db.items[id].model) in locks
  }

  lemma MergedStays(a: Db, b: Db, locks: set<Lock>, id: Id, field: int)
    requires OwnersKnown(a) && Stable(a, b, locks) && HeldItem(a, id, locks)
    requires OneCurrent(a.table.values) && OneCurrent(b.table.values)
    ensures HeldItem(b, id, locks) && b.items[id] == a.items[id] && ModelOf(b, id) == ModelOf(a, id)
    ensures var v := MergedId(a.table.values, HolderOf(a, id), field);
            && MergedId(b.table.values, HolderOf(b, id), field) == v
            && (v.Some? ==> b.table.values[v.value] == a.table.values[v.value]
                            && Held(a, a.table.values[v.value].owner, locks))
  {
    CurrentStays(a, b, locks, OfItem(id), field);
    CurrentStays(a, b, locks, OfModel(a.items[id].model), field);
  }

  /** Evidence that was usable for a value under a held model still is. */
  lemma UsableStays(env: Env, a: Db, b: Db, locks: set<Lock>, v: Id, now: int)
    requires Stable(a, b, locks) && v < |a.table.values| && Held(a, a.table.values[v].owner, locks)
    ensures UsableEvidence(env, a.table.links, a.evidence, v, now) <= UsableEvidence(env, b.table.links, b.evidence,
        v, now)
  {
    forall e | e in UsableEvidence(env, a.table.links, a.evidence, v, now)
      ensures e in UsableEvidence(env, b.table.links, b.evidence, v, now)
    {
      assert HeldLink(a, Link(e, v), locks);
    }
  }

  /** And its links are the same. */
  lemma LinksStay(a: Db, b: Db, locks: set<Lock>, v: Id)
    requires OwnersKnown(a) && Stable(a, b, locks) && v < |a.table.values| && Held(a, a.table.values[v].owner, locks)
    ensures EvidenceOf(b.table.links, v) == EvidenceOf(a.table.links, v)
  {
    HeldStays(a, b, locks, a.table.values[v].owner);
    forall e ensures e in EvidenceOf(b.table.links, v) <==> e in EvidenceOf(a.table.links, v) {
      assert e in EvidenceOf(b.table.links, v) <==> Link(e, v) in b.table.links;
      assert e in EvidenceOf(a.table.links, v) <==> Link(e, v) in a.table.links;
    }
  }

  lemma ProvenStays(env: Env, a: Db, b: Db, locks: set<Lock>, id: Id, now: int, field: int)
    requires OwnersKnown(a) && Stable(a, b, locks) && HeldItem(a, id, locks) && HasModel(b, id)
    requires OneCurrent(a.table.values) && OneCurrent(b.table.values)
    requires Proven(ValueOf(Inputs(env, a, HolderOf(a, id), now, FIELDS), field))
    ensures Proven(ValueOf(Inputs(env, b, HolderOf(b, id), now, FIELDS), field))
  {
    hide Inputs, ValueOf, UsableEvidence, MergedId, Stable, OwnersKnown;
    InputsByField(env, a, HolderOf(a, id), now, FIELDS, field);
    InputsByField(env, b, HolderOf(b, id), now, FIELDS, field);
    MergedStays(a, b, locks, id, field);
    var v := MergedId(a.table.values, HolderOf(a, id), field);
    if v.Some? {
      UsableStays(env, a, b, locks, v.value, now);
      SubsetSize(UsableEvidence(env, a.table.links, a.evidence, v.value, now),
                 UsableEvidence(env, b.table.links, b.evidence, v.value, now));
    }
  }

  lemma FieldRulesStay(env: Env, a: Db, b: Db, locks: set<Lock>, id: Id, now: int)
    requires OwnersKnown(a) && Stable(a, b, locks) && HeldItem(a, id, locks) && HasModel(b, id)
    requires OneCurrent(a.table.values) && OneCurrent(b.table.values)
    ensures b.items[id] == a.items[id]
    ensures var h, item := HolderOf(a, id), a.items[id];
            && HolderOf(b, id) == h
            && CrossFieldsOk(env, b.table.values, h, item.manufactured, now) ==
               CrossFieldsOk(env, a.table.values, h, item.manufactured, now)
            && StatusFieldOk(b.table.values, h, item.lifecycle) == StatusFieldOk(a.table.values, h, item.lifecycle)
  {
    hide MergedId, AtMost, Stable, OwnersKnown;
    MergedStays(a, b, locks, id, 10);
    MergedStays(a, b, locks, id, 11);
    MergedStays(a, b, locks, id, 26);
    MergedStays(a, b, locks, id, 27);
    MergedStays(a, b, locks, id, 28);
    MergedStays(a, b, locks, id, 67);
  }

  /** What was publishable when it was read is publishable when it is written. */
  lemma PublishableStays(env: Env, a: Db, b: Db, locks: set<Lock>, id: Id, now: int)
    requires OwnersKnown(a) && Stable(a, b, locks) && HeldItem(a, id, locks)
    requires OneCurrent(a.table.values) && OneCurrent(b.table.values) && Publishable(env, a, id, now)
    ensures HasModel(b, id) && Publishable(env, b, id, now)
  {
    hide Inputs, ValueOf, Complete, CrossFieldsOk, StatusFieldOk, Missing, Unproven, Stable, OwnersKnown, OneCurrent;
    MergedStays(a, b, locks, id, 1);
    FieldRulesStay(env, a, b, locks, id, now);
    var model := ModelOf(a, id);
    var applicable := ApplicableSet(model.context);
    var before, after := Inputs(env, a, HolderOf(a, id), now, FIELDS), Inputs(env, b, HolderOf(b, id), now, FIELDS);
    ReadyMeansProven(env.rules.fields, model.category, before, applicable);
    forall f | f in env.rules.fields && RequiredNow(f, model.category, applicable)
      ensures Proven(ValueOf(after, f.id)) {
      ProvenStays(env, a, b, locks, id, now, f.id);
    }
    ReadyMeansProven(env.rules.fields, model.category, after, applicable);
  }

  /** An order of links for the rows as they are now that lists the locked values' links as they were read. */
  ghost function Reordered(a: Db, b: Db, locks: set<Lock>, order: Id -> seq<Id>): Id -> seq<Id> {
    (v: Id) => ReorderedAt(a, b, locks, order, v)
  }

  ghost function ReorderedAt(a: Db, b: Db, locks: set<Lock>, order: Id -> seq<Id>, v: Id): seq<Id> {
    if v < |a.table.values| && Held(a, a.table.values[v].owner, locks) then order(v)
    else Listing(EvidenceOf(b.table.links, v))
  }

  lemma ReorderedLists(a: Db, b: Db, locks: set<Lock>, order: Id -> seq<Id>)
    requires OwnersKnown(a) && Stable(a, b, locks) && ListsLinks(order, a.table.links)
    ensures ListsLinks(Reordered(a, b, locks, order), b.table.links)
  {
    hide Stable, OwnersKnown, EvidenceOf;
    forall v: Id ensures SetOf(Reordered(a, b, locks, order)(v)) == EvidenceOf(b.table.links, v) {
      if v < |a.table.values| && Held(a, a.table.values[v].owner, locks) {
        LinksStay(a, b, locks, v);
      }
    }
  }

  lemma {:induction false} DocValuesStay(env: Env, a: Db, b: Db, locks: set<Lock>, id: Id, order: Id -> seq<Id>, n: nat)
    requires OwnersKnown(a) && Stable(a, b, locks) && HeldItem(a, id, locks)
    requires OneCurrent(a.table.values) && OneCurrent(b.table.values)
    ensures DocValues(env, b.table.values, HolderOf(a, id), Reordered(a, b, locks, order), n) ==
            DocValues(env, a.table.values, HolderOf(a, id), order, n)
  {
    hide Stable, OwnersKnown, OneCurrent, MergedId, ContentOf;
    if n > 0 {
      DocValuesStay(env, a, b, locks, id, order, n - 1);
      MergedStays(a, b, locks, id, n);
    }
  }

  // ---- a decision is still right when it is written ----

  /** `seen` was read under the step's locks, which are held since, and the step was not refused. */
  ghost predicate Decided(env: Env, seen: Db, db: Db, step: PR.Step, locks: set<Lock>) {
    && OwnersKnown(seen) && Chained(seen.table.values) && Chained(db.table.values) && Stable(seen, db, locks)
    && Needs(seen, step) <= locks && PR.Enabled(seen, step) && PR.Attempt(env, seen, step).Done?
    && !IsStatement(step) && !step.StepRejectEvidence?
  }

  lemma OwnerStaysOpen(a: Db, b: Db, locks: set<Lock>, owner: Owner)
    requires Stable(a, b, locks) && LockOwner(a, owner).None? && OwnerLocks(a, Some(owner)) <= locks
    ensures Held(a, owner, locks) && LockOwner(b, owner).None?
  {
    assert Guard(a, owner).Some?;
  }

  lemma CreateWrites(env: Env, seen: Db, db: Db, step: PR.Step, locks: set<Lock>)
    requires Decided(env, seen, db, step, locks) && step.StepCreate?
    ensures PR.Attempt(env, db, step) == Done(Written(env, seen, db, step))
    ensures PR.Enabled(db, step) && Needs(db, step) <= locks
  {
    hide ValidateValue, RejectValue, Accept, Publish, Validate, RecordEvent, Submit, ReviewApplicability,
        RejectEvidence;
    hide ChangeEvidence, AddModel, AddItem, AddEvidence, AddRequest, Ingest, OpenPortal, LinkEvidence, Needs,
        Invalidate;
    NeedsAre(seen, step);
    OwnerStaysOpen(seen, db, locks, step.owner);
    CurrentStays(seen, db, locks, step.owner, step.field);
    NeedsAre(db, step);
  }

  /** The row of a value under its owner's lock. */
  lemma ValueStays(a: Db, b: Db, locks: set<Lock>, v: Id)
    requires Stable(a, b, locks) && v < |a.table.values| && LockOwner(a, a.table.values[v].owner).None?
    requires OwnerLocks(a, OwnerAt(a, v)) <= locks
    ensures v < |b.table.values| && b.table.values[v] == a.table.values[v]
    ensures Held(a, a.table.values[v].owner, locks) && LockOwner(b, b.table.values[v].owner).None?
    ensures OwnerLocks(b, OwnerAt(b, v)) <= locks
  {
    OwnerStaysOpen(a, b, locks, a.table.values[v].owner);
  }

  lemma ConfirmWrites(env: Env, seen: Db, db: Db, step: PR.Step, locks: set<Lock>)
    requires Decided(env, seen, db, step, locks) && (step.StepConfirm? || step.StepReject?)
    ensures PR.Attempt(env, db, step) == Done(Written(env, seen, db, step))
    ensures Needs(db, step) <= locks
  {
    hide CreateValue, Accept, Publish, Validate, RecordEvent, Submit, ReviewApplicability, RejectEvidence, LinkEvidence;
    hide ChangeEvidence, AddModel, AddItem, AddEvidence, AddRequest, Ingest, OpenPortal, Needs, Invalidate,
        UsableEvidence;
    hide Stable, OwnersKnown, Chained, OwnerLocks;
    NeedsAre(seen, step);
    ValueStays(seen, db, locks, step.value);
    UsableStays(env, seen, db, locks, step.value, step.now);
    NeedsAre(db, step);
  }

  lemma LinkWrites(env: Env, seen: Db, db: Db, step: PR.Step, locks: set<Lock>)
    requires Decided(env, seen, db, step, locks) && step.StepLink?
    ensures PR.Attempt(env, db, step) == Done(Written(env, seen, db, step))
    ensures Needs(db, step) <= locks
  {
    hide CreateValue, Accept, Publish, Validate, RecordEvent, Submit, ReviewApplicability, RejectEvidence,
        ValidateValue;
    hide ChangeEvidence, AddModel, AddItem, AddEvidence, AddRequest, Ingest, OpenPortal, Needs, Invalidate, RejectValue;
    NeedsAre(seen, step);
    var owner := seen.table.values[step.value].owner;
    assert Lockable(seen, OwnerAt(seen, step.value));
    assert LO.EvidenceRow(step.evidence) in EvidenceLocks({step.evidence});
    ValueStays(seen, db, locks, step.value);
    NeedsAre(db, step);
  }

  lemma RequestWrites(env: Env, seen: Db, db: Db, step: PR.Step, locks: set<Lock>)
    requires Decided(env, seen, db, step, locks) && (step.StepSubmit? || step.StepOpen?)
    ensures PR.Enabled(db, step) && PR.Attempt(env, db, step) == Done(Written(env, seen, db, step))
    ensures Needs(db, step) <= locks
  {
    hide CreateValue, Accept, Publish, Validate, RecordEvent, ReviewApplicability, RejectEvidence, ValidateValue;
    hide ChangeEvidence, AddModel, AddItem, AddEvidence, AddRequest, Ingest, Needs, Invalidate, RejectValue,
        LinkEvidence;
    hide FirstProblem;
    NeedsAre(seen, step);
    if step.StepSubmit? {
      ProblemsStay(step.body, seen.requests[step.request].fields, seen.evidence.Keys, db.evidence.Keys);
    }
    NeedsAre(db, step);
  }

  /** Evidence that is known stays known. */
  lemma {:induction false} ProblemsStay(body: seq<Posted>, fields: set<int>, known: set<Id>, more: set<Id>)
    requires known <= more && FirstProblem(body, fields, known).None?
    ensures FirstProblem(body, fields, more).None?
    decreases |body|
  {
    if body != [] {
      ProblemsStay(body[1..], fields, known, more);
    }
  }

  lemma AcceptWrites(env: Env, seen: Db, db: Db, step: PR.Step, locks: set<Lock>)
    requires Decided(env, seen, db, step, locks) && step.StepAccept?
    ensures PR.Enabled(db, step) && PR.Attempt(env, db, step) == Done(Written(env, seen, db, step))
    ensures Needs(db, step) <= locks
  {
    hide CreateValue, Publish, Validate, RecordEvent, ReviewApplicability, RejectEvidence, ValidateValue, Submit,
        OpenPortal;
    hide ChangeEvidence, AddModel, AddItem, AddEvidence, AddRequest, Ingest, Needs, Invalidate, RejectValue,
        LinkEvidence;
    hide AcceptAll;
    NeedsAre(seen, step);
    var evidence := EvidenceIn(seen.requests[step.request].submissions);
    forall e | e in evidence ensures LO.EvidenceRow(e) in locks {
      assert LO.EvidenceRow(e) in EvidenceLocks(evidence);
    }
    NeedsAre(db, step);
  }

  lemma ItemWrites(env: Env, seen: Db, db: Db, step: PR.Step, locks: set<Lock>)
    requires Decided(env, seen, db, step, locks) && (step.StepEvent? || step.StepIngest?)
    ensures PR.Attempt(env, db, step) == Done(Written(env, seen, db, step))
    ensures Needs(db, step) <= locks
  {
    hide CreateValue, Publish, Validate, Accept, ReviewApplicability, RejectEvidence, ValidateValue, Submit, OpenPortal;
    hide ChangeEvidence, AddModel, AddItem, AddEvidence, AddRequest, Needs, Invalidate, RejectValue, LinkEvidence,
        Noted;
    NeedsAre(seen, step);
    assert Guard(seen, OfItem(step.item)).Some?;
    NeedsAre(db, step);
  }

  lemma ReviewWrites(env: Env, seen: Db, db: Db, step: PR.Step, locks: set<Lock>)
    requires Decided(env, seen, db, step, locks) && step.StepReview?
    ensures PR.Attempt(env, db, step) == Done(Written(env, seen, db, step))
    ensures Needs(db, step) <= locks
  {
    hide CreateValue, Publish, Validate, Accept, RecordEvent, RejectEvidence, ValidateValue, Submit, OpenPortal, Ingest;
    hide ChangeEvidence, AddModel, AddItem, AddEvidence, AddRequest, Needs, Invalidate, RejectValue, LinkEvidence;
    hide Complete, Reviewed;
    NeedsAre(seen, step);
    NeedsAre(db, step);
  }

  /** The verdict on an item was the good one, or the bad one still holds. */
  ghost predicate NotStale(env: Env, seen: Db, db: Db, step: PR.Step) {
    step.StepValidate? && step.item in seen.items && step.item in db.items && HasModel(seen, step.item)
    && HasModel(db, step.item) ==>
      (Publishable(env, db, step.item, step.now) ==> Publishable(env, seen, step.item, step.now))
  }

  lemma ItemIsHeld(env: Env, seen: Db, db: Db, step: PR.Step, locks: set<Lock>)
    requires Decided(env, seen, db, step, locks) && (step.StepValidate? || step.StepPublish?)
    ensures HeldItem(seen, step.item, locks) && LockItem(seen, step.item).None?
    ensures HasModel(db, step.item) && db.items[step.item] == seen.items[step.item] && LockItem(db, step.item).None?
  {
    hide CreateValue, RecordEvent, Accept, ReviewApplicability, RejectEvidence, ValidateValue, Submit, OpenPortal,
        Ingest;
    hide ChangeEvidence, AddModel, AddItem, AddEvidence, AddRequest, Needs, Invalidate, RejectValue, LinkEvidence;
    hide Publishable, NextDocument, WithVersion;
    NeedsAre(seen, step);
    assert Guard(seen, OfItem(step.item)).Some?;
  }

  lemma ValidateWrites(env: Env, seen: Db, db: Db, step: PR.Step, locks: set<Lock>)
    requires Decided(env, seen, db, step, locks) && step.StepValidate? && NotStale(env, seen, db, step)
    ensures PR.Attempt(env, db, step) == Done(Written(env, seen, db, step))
    ensures Needs(db, step) <= locks
  {
    hide CreateValue, RecordEvent, Accept, ReviewApplicability, RejectEvidence, ValidateValue, Submit, OpenPortal,
        Ingest;
    hide ChangeEvidence, AddModel, AddItem, AddEvidence, AddRequest, Needs, Invalidate, RejectValue, LinkEvidence;
    hide Publishable, Publish, Stable, OwnersKnown;
    ItemIsHeld(env, seen, db, step, locks);
    if Publishable(env, seen, step.item, step.now) {
      PublishableStays(env, seen, db, locks, step.item, step.now);
    }
    NeedsAre(db, step);
  }

  /** The same publication, with the links listed from the rows as they are now. */
  ghost function Relisted(seen: Db, db: Db, locks: set<Lock>, step: PR.Step): PR.Step {
    if step.StepPublish? then step.(order := Reordered(seen, db, locks, step.order)) else step
  }

  lemma DocumentStays(env: Env, seen: Db, db: Db, locks: set<Lock>, id: Id, generatedAt: string, ruleSet: string,
                      order: Id -> seq<Id>)
    requires OwnersKnown(seen) && Stable(seen, db, locks) && HeldItem(seen, id, locks)
    requires OneCurrent(seen.table.values) && OneCurrent(db.table.values)
    ensures HasModel(db, id)
    ensures NextDocument(env, db, id, generatedAt, ruleSet, Reordered(seen, db, locks, order)) ==
            NextDocument(env, seen, id, generatedAt, ruleSet, order)
  {
    hide Stable, OwnersKnown, OneCurrent, DocValues, Reordered;
    MergedStays(seen, db, locks, id, 1);
    DocValuesStay(env, seen, db, locks, id, order, FIELDS);
  }

  lemma PublishWrites(env: Env, seen: Db, db: Db, step: PR.Step, locks: set<Lock>)
    requires Decided(env, seen, db, step, locks) && step.StepPublish?
    requires step.item in seen.items ==> !UpiTaken(db, step.item, UpiOf(env, seen.items[step.item]))
    ensures PR.Enabled(db, Relisted(seen, db, locks, step))
    ensures PR.Attempt(env, db, Relisted(seen, db, locks, step)) == Done(Written(env, seen, db, step))
    ensures Needs(db, Relisted(seen, db, locks, step)) <= locks
  {
    hide CreateValue, RecordEvent, Accept, ReviewApplicability, RejectEvidence, ValidateValue, Submit, OpenPortal,
        Ingest;
    hide ChangeEvidence, AddModel, AddItem, AddEvidence, AddRequest, Needs, Invalidate, RejectValue, LinkEvidence;
    hide Publishable, Validate, Stable, OwnersKnown, NextDocument, WithVersion, Reordered, ListsLinks, UpiTaken;
    ItemIsHeld(env, seen, db, step, locks);
    PublishableStays(env, seen, db, locks, step.item, step.now);
    ReorderedLists(seen, db, locks, step.order);
    DocumentStays(env, seen, db, locks, step.item, step.generatedAt, step.ruleSet, step.order);
    NeedsAre(seen, step);
    NeedsAre(db, Relisted(seen, db, locks, step));
  }

  /**
   A decision made under locks is still the right one when it is written: the write is
   the whole step, done at that moment. Two things can come between, and neither is
   guarded by the step's locks: another item may have taken the identifier, which the
   database refuses, and an item found wanting may have become publishable.
   */
  lemma WriteIsStep(env: Env, seen: Db, db: Db, step: PR.Step, locks: set<Lock>)
    requires Decided(env, seen, db, step, locks) && NotStale(env, seen, db, step)
    requires step.StepPublish? && step.item in seen.items ==>
             !UpiTaken(db, step.item, UpiOf(env, seen.items[step.item]))
    ensures PR.Enabled(db, Relisted(seen, db, locks, step))
    ensures PR.Attempt(env, db, Relisted(seen, db, locks, step)) == Done(Written(env, seen, db, step))
    ensures Needs(db, Relisted(seen, db, locks, step)) <= locks
  {
    hide Decided, NotStale, Written, PR.Attempt, Reordered, UpiTaken, Needs;
    match step
    case StepCreate(_, _, _, _, _, _) => CreateWrites(env, seen, db, step, locks);
    case StepConfirm(_, _) => ConfirmWrites(env, seen, db, step, locks);
    case StepReject(_, _) => ConfirmWrites(env, seen, db, step, locks);
    case StepLink(_, _) => LinkWrites(env, seen, db, step, locks);
    case StepSubmit(_, _, _) => RequestWrites(env, seen, db, step, locks);
    case StepOpen(_, _) => RequestWrites(env, seen, db, step, locks);
    case StepAccept(_, _, _) => AcceptWrites(env, seen, db, step, locks);
    case StepEvent(_, _, _, _) => ItemWrites(env, seen, db, step, locks);
    case StepIngest(_, _) => ItemWrites(env, seen, db, step, locks);
    case StepReview(_, _, _, _) => ReviewWrites(env, seen, db, step, locks);
    case StepValidate(_, _) => ValidateWrites(env, seen, db, step, locks);
    case StepPublish(_, _, _, _, _) => PublishWrites(env, seen, db, step, locks);
    case _ => NoOther(env, seen, db, step, locks);
  }

  lemma NoOther(env: Env, seen: Db, db: Db, step: PR.Step, locks: set<Lock>)
    requires Decided(env, seen, db, step, locks)
    ensures !IsStatement(step) && !step.StepRejectEvidence?
  {
  }
}
