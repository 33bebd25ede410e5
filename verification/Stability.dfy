/**
 What locks are worth: the rows they guard stay as they are, whatever steps other
 transactions commit under locks of their own.
 */
module Stability {
  import opened Prelude
  import opened CanonicalJson
  import opened Applicability
  import opened PassportValues
  import opened PassportTables
  import opened PassportSteps
  import opened Footprint
  import PR = PassportRuns
  import LO = LockOrder

  /** Values belong to stored items or to models, and links mention stored values. */
  predicate OwnersKnown(db: Db) {
    && (forall v :: 0 <= v < |db.table.values| ==> Guard(db, db.table.values[v].owner).Some?)
    && LinksKnown(db.table)
  }

  /** The model that guards the owner is locked. */
  predicate Held(db: Db, owner: Owner, locks: set<Lock>) {
    Guard(db, owner).Some? && LO.ModelRow(Guard(db, owner).value) in locks
  }

  /** Rows are only added, keep their owners, and under a held model neither change nor come. */
  predicate StableValues(a: Db, b: Db, locks: set<Lock>) {
    && |a.table.values| <= |b.table.values|
    && (forall v :: 0 <= v < |a.table.values| ==> b.table.values[v].owner == a.table.values[v].owner)
    && (forall v :: 0 <= v < |a.table.values| && Held(a, a.table.values[v].owner, locks) ==>
          b.table.values[v] == a.table.values[v])
    && (forall v :: |a.table.values| <= v < |b.table.values| ==> !Held(b, b.table.values[v].owner, locks))
  }

  /** Links are only added, and none to a value or of an evidence object that is held. */
  predicate StableLinks(a: Db, b: Db, locks: set<Lock>) {
    && a.table.links <= b.table.links
    && forall l :: l in b.table.links && l !in a.table.links ==>
         && LO.EvidenceRow(l.evidence) !in locks
         && (l.value < |b.table.values| ==> !Held(b, b.table.values[l.value].owner, locks))
  }

  predicate StableItems(a: Db, b: Db, locks: set<Lock>) {
    forall id :: id in a.items ==>
      && id in b.items && b.items[id].model == a.items[id].model
      && (LO.ModelRow(a.items[id].model) in locks ==> b.items[id] == a.items[id])
  }

  predicate StableModels(a: Db, b: Db, locks: set<Lock>) {
    forall m :: m in a.models ==> m in b.models && (LO.ModelRow(m) in locks ==> b.models[m] == a.models[m])
  }

  /** The evidence may have been verified or scanned since, not rejected. */
  predicate NoWorse(a: Evidence, b: Evidence) {
    && b.issued == a.issued && b.expires == a.expires
    && (a.status == Verified ==> b.status == Verified && (a.scanned ==> b.scanned))
  }

  predicate HeldLink(db: Db, l: Link, locks: set<Lock>) {
    l.value < |db.table.values| && Held(db, db.table.values[l.value].owner, locks)
  }

  /** An object linked to a value under a held model is not rejected: that takes the model's lock. */
  predicate StableEvidence(a: Db, b: Db, locks: set<Lock>) {
    && (forall e :: e in a.evidence ==>
          e in b.evidence && (LO.EvidenceRow(e) in locks ==> b.evidence[e] == a.evidence[e]))
    && (forall l :: l in a.table.links && HeldLink(a, l, locks) && l.evidence in a.evidence ==>
          l.evidence in b.evidence && NoWorse(a.evidence[l.evidence], b.evidence[l.evidence]))
  }

  predicate StableRequests(a: Db, b: Db, locks: set<Lock>) {
    forall r :: r in a.requests ==>
      && r in b.requests && b.requests[r].model == a.requests[r].model
      && (LO.RequestRow(r) in locks ==> b.requests[r] == a.requests[r])
  }

  /** From `a` to `b` nothing happened to the rows the locks guard. */
  ghost predicate Stable(a: Db, b: Db, locks: set<Lock>) {
    && StableValues(a, b, locks) && StableLinks(a, b, locks) && StableItems(a, b, locks)
    && StableModels(a, b, locks) && StableEvidence(a, b, locks) && StableRequests(a, b, locks)
  }

  lemma StableSelf(db: Db, locks: set<Lock>)
    ensures Stable(db, db, locks)
  {
  }

  lemma HeldStays(a: Db, b: Db, locks: set<Lock>, owner: Owner)
    requires StableItems(a, b, locks) && Guard(a, owner).Some?
    ensures Guard(b, owner) == Guard(a, owner) && Held(b, owner, locks) == Held(a, owner, locks)
  {
  }

  lemma StableChain(a: Db, b: Db, c: Db, locks: set<Lock>)
    requires OwnersKnown(a) && OwnersKnown(b) && Stable(a, b, locks) && Stable(b, c, locks)
    ensures Stable(a, c, locks)
  {
    ValuesChain(a, b, c, locks);
    LinksChain(a, b, c, locks);
    EvidenceChain(a, b, c, locks);
  }

  lemma ValuesChain(a: Db, b: Db, c: Db, locks: set<Lock>)
    requires OwnersKnown(a) && OwnersKnown(b) && StableItems(a, b, locks) && StableItems(b, c, locks)
    requires StableValues(a, b, locks) && StableValues(b, c, locks)
    ensures StableValues(a, c, locks)
  {
    forall v | 0 <= v < |a.table.values| && Held(a, a.table.values[v].owner, locks)
      ensures c.table.values[v] == a.table.values[v]
    {
      HeldStays(a, b, locks, a.table.values[v].owner);
    }
    forall v | |a.table.values| <= v < |c.table.values| ensures !Held(c, c.table.values[v].owner, locks) {
      if v < |b.table.values| {
        HeldStays(b, c, locks, b.table.values[v].owner);
      }
    }
  }

  lemma LinksChain(a: Db, b: Db, c: Db, locks: set<Lock>)
    requires OwnersKnown(a) && OwnersKnown(b) && StableItems(b, c, locks) && StableValues(b, c, locks)
    requires StableLinks(a, b, locks) && StableLinks(b, c, locks)
    ensures StableLinks(a, c, locks)
  {
    forall l | l in c.table.links && l !in a.table.links && l.value < |c.table.values|
      ensures !Held(c, c.table.values[l.value].owner, locks)
    {
      if l in b.table.links {
        HeldStays(b, c, locks, b.table.values[l.value].owner);
      }
    }
  }

  lemma EvidenceChain(a: Db, b: Db, c: Db, locks: set<Lock>)
    requires OwnersKnown(a) && OwnersKnown(b) && StableItems(a, b, locks) && StableValues(a, b, locks)
    requires StableLinks(a, b, locks) && StableEvidence(a, b, locks) && StableEvidence(b, c, locks)
    ensures StableEvidence(a, c, locks)
  {
    forall l | l in a.table.links && HeldLink(a, l, locks) && l.evidence in a.evidence
      ensures l.evidence in c.evidence && NoWorse(a.evidence[l.evidence], c.evidence[l.evidence])
    {
      HeldStays(a, b, locks, a.table.values[l.value].owner);
      assert l in b.table.links;
    }
  }

  // ---- every step leaves other transactions' rows alone ----

  /** None of the owners is held. */
  predicate AllFree(db: Db, owners: set<Owner>, locks: set<Lock>) {
    forall o :: o in owners ==> Guard(db, o).Some? && !Held(db, o, locks)
  }

  lemma InvalidatedStable(db: Db, after: Db, owners: set<Owner>, locks: set<Lock>)
    requires AllFree(db, owners, locks) && after.items == Invalidate(db.items, owners)
    ensures StableItems(db, after, locks)
  {
    forall id | id in db.items && LO.ModelRow(db.items[id].model) in locks ensures after.items[id] == db.items[id] {
      assert OfItem(id) in owners ==> !Held(db, OfItem(id), locks);
      assert OfModel(db.items[id].model) in owners ==> !Held(db, OfModel(db.items[id].model), locks);
    }
  }

  /** Writing rows of free owners and links of free evidence, and invalidating the owners. */
  lemma TableWriteStable(db: Db, after: Db, owners: set<Owner>, locks: set<Lock>)
    requires OwnersKnown(db) && AllFree(db, owners, locks) && after.items == Invalidate(db.items, owners)
    requires Touches(db.table.values, db.table.links, after.table.values, after.table.links, owners)
    requires LinksKnown(after.table) && db.table.links <= after.table.links
    requires forall l :: l in after.table.links && l !in db.table.links ==> LO.EvidenceRow(l.evidence) !in locks
    ensures StableValues(db, after, locks) && StableLinks(db, after, locks) && StableItems(db, after, locks)
    ensures OwnersKnown(after)
  {
    InvalidatedStable(db, after, owners, locks);
    forall v | 0 <= v < |after.table.values|
      ensures Guard(after, after.table.values[v].owner).Some?
      ensures v >= |db.table.values| || after.table.values[v] != db.table.values[v] ==>
                !Held(after, after.table.values[v].owner, locks)
    {
      var o := after.table.values[v].owner;
      assert Guard(db, o).Some?;
      HeldStays(db, after, locks, o);
    }
    forall l | l in after.table.links && l !in db.table.links && l.value < |after.table.values|
      ensures !Held(after, after.table.values[l.value].owner, locks)
    {
      var o := after.table.values[l.value].owner;
      assert o in owners;
      HeldStays(db, after, locks, o);
    }
  }

  lemma CreateStable(db: Db, owner: Owner, field: int, json: Json, unit: Option<string>, source: Source, now: int,
                     locks: set<Lock>)
    requires OwnersKnown(db) && CreateValue(db, owner, field, json, unit, source, now).Done?
    requires OwnerLocks(db, Some(owner)) !! locks
    ensures var after := CreateValue(db, owner, field, json, unit, source, now).db;
            Stable(db, after, locks) && OwnersKnown(after)
  {
    hide Invalidate;
    TableWriteStable(db, CreateValue(db, owner, field, json, unit, source, now).db, {owner}, locks);
  }

  lemma RewriteTouches(values: Values, links: set<Link>, id: Id, v: Value)
    requires id < |values| && v.owner == values[id].owner
    ensures Touches(values, links, values[id := v], links, {v.owner})
  {
  }

  /** A row rewritten for its owner, who is invalidated. */
  lemma RewriteStable(db: Db, id: Id, v: Value, locks: set<Lock>)
    requires OwnersKnown(db) && id < |db.table.values| && v.owner == db.table.values[id].owner
    requires OwnerLocks(db, OwnerAt(db, id)) !! locks
    ensures var after := db.(table := db.table.(values := db.table.values[id := v]),
                             items := Invalidate(db.items, {v.owner}));
            Stable(db, after, locks) && OwnersKnown(after)
  {
    hide Invalidate, Touches;
    var after := db.(table := db.table.(values := db.table.values[id := v]),
                     items := Invalidate(db.items, {v.owner}));
    RewriteTouches(db.table.values, db.table.links, id, v);
    TableWriteStable(db, after, {v.owner}, locks);
  }

  /** A row rewritten for its owner, who need not be. */
  lemma QuietRewriteStable(db: Db, id: Id, v: Value, locks: set<Lock>)
    requires OwnersKnown(db) && id < |db.table.values| && v.owner == db.table.values[id].owner
    requires OwnerLocks(db, OwnerAt(db, id)) !! locks
    ensures var after := db.(table := db.table.(values := db.table.values[id := v]));
            Stable(db, after, locks) && OwnersKnown(after)
  {
    assert Guard(db, v.owner).Some?;
  }

  lemma LinkStable(db: Db, evidence: Id, value: Id, locks: set<Lock>)
    requires OwnersKnown(db) && LinkEvidence(db, evidence, value).Done?
    requires OwnerLocks(db, OwnerAt(db, value)) !! locks && LO.EvidenceRow(evidence) !in locks
    ensures var after := LinkEvidence(db, evidence, value).db; Stable(db, after, locks) && OwnersKnown(after)
  {
    hide Invalidate;
    TableWriteStable(db, LinkEvidence(db, evidence, value).db, {db.table.values[value].owner}, locks);
  }

  lemma {:induction false} AcceptTouches(t: Table, model: Id, submissions: seq<Submission>, now: int)
    requires LinksKnown(t)
    ensures var after := AcceptAll(t, model, submissions, now);
            && Touches(t.values, t.links, after.values, after.links, {OfModel(model)})
            && t.links <= after.links && LinksKnown(after)
            && (forall l :: l in after.links && l !in t.links ==>
                  exists i :: 0 <= i < |submissions| && l.evidence in submissions[i].evidence)
    decreases |submissions|
  {
    if submissions != [] {
      var front, last := submissions[..|submissions| - 1], submissions[|submissions| - 1];
      AcceptTouches(t, model, front, now);
      var before, after := AcceptAll(t, model, front, now), AcceptAll(t, model, submissions, now);
      forall l | l in after.links && l !in t.links
        ensures exists i :: 0 <= i < |submissions| && l.evidence in submissions[i].evidence
      {
        if l in before.links {
          var i :| 0 <= i < |front| && l.evidence in front[i].evidence;
          assert l.evidence in submissions[i].evidence;
        } else {
          assert l.evidence in submissions[|submissions| - 1].evidence;
        }
      }
    }
  }

  lemma AcceptStable(db: Db, request: Id, listed: seq<Id>, now: int, locks: set<Lock>)
    requires OwnersKnown(db) && (request in db.requests ==> Ordered(db.requests[request].submissions, listed))
    requires Accept(db, request, listed, now).Done?
    requires LO.ModelRow(db.requests[request].model) !in locks && LO.RequestRow(request) !in locks
    requires EvidenceLocks(EvidenceIn(db.requests[request].submissions)) !! locks
    ensures var after := Accept(db, request, listed, now).db; Stable(db, after, locks) && OwnersKnown(after)
  {
    hide Invalidate, Touches, AcceptAll;
    var r, after := db.requests[request], Accept(db, request, listed, now).db;
    var subs := Listed(r.submissions, listed);
    AcceptTouches(db.table, r.model, subs, now);
    forall l | l in after.table.links && l !in db.table.links ensures LO.EvidenceRow(l.evidence) !in locks {
      var i :| 0 <= i < |subs| && l.evidence in subs[i].evidence;
      assert listed[i] in r.submissions;
      assert LO.EvidenceRow(l.evidence) in EvidenceLocks(EvidenceIn(r.submissions));
    }
    TableWriteStable(db, after, {OfModel(r.model)}, locks);
  }

  lemma RejectionStable(db: Db, evidence: Id, locks: set<Lock>)
    requires OwnersKnown(db) && RejectEvidence(db, evidence).Done?
    requires ModelLocks(LinkedGuards(db, evidence)) !! locks && LO.EvidenceRow(evidence) !in locks
    ensures var after := RejectEvidence(db, evidence).db; Stable(db, after, locks) && OwnersKnown(after)
  {
    var owners, after := LinkedOwners(db.table, evidence), RejectEvidence(db, evidence).db;
    forall o | o in owners ensures Guard(db, o).Some? && !Held(db, o, locks) {
      assert Guard(db, o).value in LinkedGuards(db, evidence);
      assert LO.ModelRow(Guard(db, o).value) in ModelLocks(LinkedGuards(db, evidence));
    }
    InvalidatedStable(db, after, owners, locks);
    forall l | l in db.table.links && l.evidence == evidence && l.value < |db.table.values|
      ensures !HeldLink(db, l, locks)
    {
      assert db.table.values[l.value].owner in owners;
    }
  }

  /** One item rewritten, or added, for its model. */
  lemma ItemStable(db: Db, id: Id, item: Item, locks: set<Lock>)
    requires OwnersKnown(db) && ItemLocks(db, id) !! locks && (id in db.items ==> item.model == db.items[id].model)
    ensures var after := db.(items := db.items[id := item]); Stable(db, after, locks) && OwnersKnown(after)
  {
    assert id in db.items ==> Guard(db, OfItem(id)).Some?;
    forall v | 0 <= v < |db.table.values| ensures
      Guard(db.(items := db.items[id := item]), db.table.values[v].owner) == Guard(db, db.table.values[v].owner)
    {
      assert Guard(db, db.table.values[v].owner).Some?;
    }
  }

  lemma ItemStepStable(env: Env, db: Db, step: PR.Step, locks: set<Lock>)
    requires OwnersKnown(db) && PR.Enabled(db, step) && PR.WritesOneItem(step) && Needs(db, step) !! locks
    ensures Stable(db, PR.Apply(env, db, step), locks) && OwnersKnown(PR.Apply(env, db, step))
  {
    hide CreateValue, ValidateValue, RejectValue, Accept, Submit, ReviewApplicability, RejectEvidence, LinkEvidence;
    hide OpenPortal, ChangeEvidence, AddModel, AddEvidence, AddRequest, NextDocument, NextVersion, Project, Publishable;
    hide OwnersKnown, Stable, Needs, ItemLocks;
    NeedsAre(db, step);
    var after := PR.Apply(env, db, step);
    if after == db {
      StableSelf(db, locks);
    } else if step.StepAddItem? {
      NewItemLocks(db, step.item);
      ItemStable(db, step.item, after.items[step.item], locks);
    } else {
      ItemStable(db, step.item, after.items[step.item], locks);
    }
  }

  lemma NewItemLocks(db: Db, id: Id)
    requires id !in db.items
    ensures ItemLocks(db, id) == {}
  {
  }

  lemma ReviewStable(env: Env, db: Db, model: Id, decisions: seq<Decision>, actor: string, at: string, locks: set<Lock>)
    requires OwnersKnown(db) && ReviewApplicability(env, db, model, decisions, actor, at).Done?
    requires LO.ModelRow(model) !in locks
    ensures var after := ReviewApplicability(env, db, model, decisions, actor, at).db;
            Stable(db, after, locks) && OwnersKnown(after)
  {
    hide Reviewed, Complete;
    InvalidatedStable(db, ReviewApplicability(env, db, model, decisions, actor, at).db, {OfModel(model)}, locks);
  }

  /** A row of a request, of evidence or of a model: written under its lock, or new. */
  lemma RequestStable(db: Db, id: Id, r: SupplierRequest, locks: set<Lock>)
    requires OwnersKnown(db) && LO.RequestRow(id) !in locks && (id in db.requests ==> r.model == db.requests[id].model)
    ensures var after := db.(requests := db.requests[id := r]); Stable(db, after, locks) && OwnersKnown(after)
  {
  }

  lemma NewRequestStable(db: Db, id: Id, r: SupplierRequest, locks: set<Lock>)
    requires OwnersKnown(db) && id !in db.requests
    ensures var after := db.(requests := db.requests[id := r]); Stable(db, after, locks) && OwnersKnown(after)
  {
  }

  lemma EvidenceStable(db: Db, id: Id, e: Evidence, locks: set<Lock>)
    requires OwnersKnown(db)
    requires id in db.evidence ==> LO.EvidenceRow(id) !in locks && NoWorse(db.evidence[id], e)
    ensures var after := db.(evidence := db.evidence[id := e]); Stable(db, after, locks) && OwnersKnown(after)
  {
  }

  lemma NewModelStable(db: Db, id: Id, m: Model, locks: set<Lock>)
    requires OwnersKnown(db) && id !in db.models
    ensures var after := db.(models := db.models[id := m]); Stable(db, after, locks) && OwnersKnown(after)
  {
  }

  /** The steps that write neither values nor items. */
  lemma RowStepStable(env: Env, db: Db, step: PR.Step, locks: set<Lock>)
    requires OwnersKnown(db) && PR.Enabled(db, step) && Needs(db, step) !! locks && PR.Attempt(env, db, step).Done?
    requires step.StepChangeEvidence? || step.StepSubmit? || step.StepOpen? || step.StepAddModel?
             || step.StepAddEvidence? || step.StepAddRequest?
    ensures Stable(db, PR.Apply(env, db, step), locks) && OwnersKnown(PR.Apply(env, db, step))
  {
    hide CreateValue, ValidateValue, RejectValue, Accept, ReviewApplicability, RejectEvidence, LinkEvidence, AddItem;
    hide Publish, Validate, RecordEvent, Ingest, Needs, FirstProblem, WithPosted, Stable, OwnersKnown;
    NeedsAre(db, step);
    var after := PR.Apply(env, db, step);
    match step
    case StepChangeEvidence(e, _) => EvidenceStable(db, e, after.evidence[e], locks);
    case StepAddEvidence(e) => EvidenceStable(db, e, after.evidence[e], locks);
    case StepSubmit(r, _, _) => RequestStable(db, r, after.requests[r], locks);
    case StepOpen(r, _) => RequestStable(db, r, after.requests[r], locks);
    case StepAddRequest(r, _, _, _) => NewRequestStable(db, r, after.requests[r], locks);
    case StepAddModel(m, _, _, _) => NewModelStable(db, m, after.models[m], locks);
    case _ =>
  }

  lemma ValueStepStable(env: Env, db: Db, step: PR.Step, locks: set<Lock>)
    requires OwnersKnown(db) && PR.Enabled(db, step) && Needs(db, step) !! locks
    requires step.StepConfirm? || step.StepReject?
    ensures Stable(db, PR.Apply(env, db, step), locks) && OwnersKnown(PR.Apply(env, db, step))
  {
    hide Accept, Publish, Validate, RecordEvent, Submit, ReviewApplicability, RejectEvidence, ChangeEvidence,
        CreateValue;
    hide AddModel, AddItem, AddEvidence, AddRequest, Ingest, OpenPortal, UsableEvidence, LinkEvidence;
    hide OwnersKnown, Stable, Needs, Invalidate, OwnerLocks;
    NeedsAre(db, step);
    if PR.Attempt(env, db, step).Done? {
      var after := PR.Apply(env, db, step);
      var v := after.table.values[step.value];
      if after.items == db.items {
        QuietRewriteStable(db, step.value, v, locks);
      } else {
        RewriteStable(db, step.value, v, locks);
      }
    } else {
      StableSelf(db, locks);
    }
  }

  /** A step touches nothing that locks disjoint from its own guard. */
  lemma StepStable(env: Env, db: Db, step: PR.Step, locks: set<Lock>)
    requires OwnersKnown(db) && PR.Enabled(db, step) && Needs(db, step) !! locks
    ensures Stable(db, PR.Apply(env, db, step), locks) && OwnersKnown(PR.Apply(env, db, step))
  {
    hide CreateValue, ValidateValue, RejectValue, Publish, Validate, RecordEvent, Ingest, AddItem, AddModel, Submit;
    hide ReviewApplicability, ChangeEvidence, AddEvidence, AddRequest, OpenPortal, Accept, LinkEvidence, RejectEvidence;
    hide OwnersKnown, Stable, Needs, Invalidate, OwnerLocks, EvidenceLocks, ModelLocks, LinkedGuards, EvidenceIn;
    if PR.WritesOneItem(step) {
      ItemStepStable(env, db, step, locks);
    } else if step.StepConfirm? || step.StepReject? {
      ValueStepStable(env, db, step, locks);
    } else if PR.Attempt(env, db, step).Refused? {
      StableSelf(db, locks);
    } else {
      DoneStable(env, db, step, locks);
    }
  }

  lemma DoneStable(env: Env, db: Db, step: PR.Step, locks: set<Lock>)
    requires OwnersKnown(db) && PR.Enabled(db, step) && Needs(db, step) !! locks && PR.Attempt(env, db, step).Done?
    requires !PR.WritesOneItem(step) && !step.StepConfirm? && !step.StepReject?
    ensures Stable(db, PR.Apply(env, db, step), locks) && OwnersKnown(PR.Apply(env, db, step))
  {
    hide CreateValue, ValidateValue, RejectValue, Publish, Validate, RecordEvent, Ingest, AddItem, AddModel, Submit;
    hide ReviewApplicability, ChangeEvidence, AddEvidence, AddRequest, OpenPortal, RejectEvidence;
    hide OwnersKnown, Stable, Needs, Invalidate, AcceptAll, OwnerLocks, EvidenceIn, LinkedGuards, LinkedOwners;
    NeedsAre(db, step);
    match step
    case StepCreate(owner, field, json, unit, source, now) =>
      CreateStable(db, owner, field, json, unit, source, now, locks);
    case StepLink(e, v) => LinkIsGuarded(db, e, v, locks); LinkStable(db, e, v, locks);
    case StepAccept(r, listed, now) => AcceptStable(db, r, listed, now, locks);
    case StepRejectEvidence(e) => RejectionStable(db, e, locks);
    case StepReview(m, decisions, actor, at) => ReviewStable(env, db, m, decisions, actor, at, locks);
    case _ => RowStepStable(env, db, step, locks);
  }

  lemma LinkIsGuarded(db: Db, evidence: Id, v: Id, locks: set<Lock>)
    requires OwnersKnown(db) && LinkEvidence(db, evidence, v).Done? && Needs(db, PR.StepLink(evidence, v)) !! locks
    ensures OwnerLocks(db, OwnerAt(db, v)) !! locks && LO.EvidenceRow(evidence) !in locks
  {
    NeedsAre(db, PR.StepLink(evidence, v));
    assert Lockable(db, OwnerAt(db, v));
    assert LO.EvidenceRow(evidence) in EvidenceLocks({evidence});
  }
}
