/** Runs of the tenant's transactions in any order, and what holds in all of them. */
module PassportRuns {
  import opened Prelude
  import opened CanonicalJson
  import opened Catalogue
  import opened Applicability
  import opened PassportValues
  import opened PassportTables
  import opened PassportSteps
  import opened PassportInvariant
  import SM = StateMachine

  /** One transaction with the inputs it was given; `order` is the order in which the database lists rows. */
  datatype Step =
    | StepCreate(owner: Owner, field: int, json: Json, unit: Option<string>, source: Source, now: int)
    | StepConfirm(value: Id, now: int)
    | StepReject(value: Id, now: int)
    | StepLink(evidence: Id, value: Id)
    | StepRejectEvidence(evidence: Id)
    | StepChangeEvidence(evidence: Id, moved: Evidence)
    | StepSubmit(request: Id, body: seq<Posted>, now: int)
    | StepOpen(request: Id, now: int)
    | StepAccept(request: Id, listed: seq<Id>, now: int)
    | StepEvent(item: Id, kind: EventKind, newStatus: Option<Lifecycle>, previous: Option<nat>)
    | StepIngest(item: Id, readings: seq<Json>)
    | StepReview(model: Id, decisions: seq<Decision>, actor: string, at: string)
    | StepValidate(item: Id, now: int)
    | StepPublish(item: Id, now: int, generatedAt: string, ruleSet: string, order: Id -> seq<Id>)
    | StepAddModel(model: Id, identifier: string, category: Category, context: Context)
    | StepAddItem(item: Id, model: Id, publicId: string, serial: string, batch: Option<string>, upi: Option<string>,
                  manufactured: Option<int>)
    | StepAddEvidence(evidence: Id)
    | StepAddRequest(request: Id, model: Id, fields: set<int>, expires: int)

  ghost predicate SubmissionsParsed(submissions: map<Id, Submission>) {
    forall id :: id in submissions ==> WellFormed(submissions[id].json)
  }

  /** Parsed JSON under ids that do not repeat. */
  ghost predicate BodyParsed(body: seq<Posted>) {
    && (forall k :: 0 <= k < |body| ==> WellFormed(body[k].s.json))
    && (forall i, j :: 0 <= i < j < |body| ==> body[i].id != body[j].id)
  }

  /** Bodies are parsed JSON, and the database lists what it holds. */
  ghost predicate Enabled(db: Db, step: Step) {
    match step
    case StepCreate(_, _, json, _, _, _) => WellFormed(json)
    case StepSubmit(request, body, _) =>
      BodyParsed(body) && (request in db.requests ==> forall k :: 0 <= k < |body| ==>
                           body[k].id !in db.requests[request].submissions)
    case StepAccept(request, listed, _) => request in db.requests ==> Ordered(db.requests[request].submissions, listed)
    case StepPublish(_, _, _, _, order) => ListsLinks(order, db.table.links)
    case _ => true
  }

  ghost function Attempt(env: Env, db: Db, step: Step): Outcome
    requires Enabled(db, step)
  {
    match step
    case StepCreate(owner, field, json, unit, source, now) => CreateValue(db, owner, field, json, unit, source, now)
    case StepConfirm(value, now) => ValidateValue(env, db, value, now)
    case StepReject(value, now) => RejectValue(db, value, now)
    case StepLink(evidence, value) => LinkEvidence(db, evidence, value)
    case StepRejectEvidence(evidence) => RejectEvidence(db, evidence)
    case StepChangeEvidence(evidence, moved) => ChangeEvidence(db, evidence, moved)
    case StepSubmit(request, body, now) => Submit(db, request, body, now)
    case StepOpen(request, now) => OpenPortal(db, request, now)
    case StepAccept(request, listed, now) => Accept(db, request, listed, now)
    case StepEvent(item, kind, newStatus, previous) => RecordEvent(db, item, kind, newStatus, previous)
    case StepIngest(item, readings) => Ingest(db, item, readings)
    case StepReview(model, decisions, actor, at) => ReviewApplicability(env, db, model, decisions, actor, at)
    case StepValidate(item, now) => Validate(env, db, item, now)
    case StepPublish(item, now, generatedAt, ruleSet, order) => Publish(env, db, item, now, generatedAt, ruleSet, order)
    case StepAddModel(model, identifier, category, context) => AddModel(db, model, identifier, category, context)
    case StepAddItem(item, model, publicId, serial, batch, upi, manufactured) =>
      AddItem(db, item, model, publicId, serial, batch, upi, manufactured)
    case StepAddEvidence(evidence) => AddEvidence(db, evidence)
    case StepAddRequest(request, model, fields, expires) => AddRequest(db, request, model, fields, expires)
  }

  ghost function Apply(env: Env, db: Db, step: Step): Db
    requires Enabled(db, step)
  {
    match Attempt(env, db, step)
    case Done(after) => after
    case Refused(_) => db
  }

  const EMPTY := Db(map[], map[], Table([], {}), map[], map[])

  ghost predicate IsRun(env: Env, states: seq<Db>, steps: seq<Step>) {
    && |states| == |steps| + 1
    && states[0] == EMPTY
    && forall i :: 0 <= i < |steps| ==> Enabled(states[i], steps[i]) && states[i + 1] == Apply(env, states[i], steps[i])
  }

  lemma RunExtends(env: Env, states: seq<Db>, steps: seq<Step>, step: Step)
    requires IsRun(env, states, steps) && Enabled(states[|steps|], step)
    ensures IsRun(env, states + [Apply(env, states[|steps|], step)], steps + [step])
  {
    hide Apply, Enabled;
  }

  // ---- the invariant ----

  lemma EmptyInv(env: Env)
    ensures Inv(env, EMPTY)
  {
  }

  lemma TableStepKeeps(env: Env, db: Db, step: Step)
    requires Inv(env, db) && Enabled(db, step)
    requires step.StepCreate? || step.StepConfirm? || step.StepReject? || step.StepLink? || step.StepAccept?
    ensures Inv(env, Apply(env, db, step))
  {
    hide CreateValue, ValidateValue, RejectValue, LinkEvidence, RejectEvidence, ChangeEvidence, Submit, OpenPortal,
        Accept;
    hide RecordEvent, Ingest, ReviewApplicability, Validate, Publish, AddModel, AddItem, AddEvidence, AddRequest, Inv;
    if Attempt(env, db, step).Done? {
      match step
      case StepCreate(owner, field, json, unit, source, now) => CreateValueKeeps(env, db, owner, field, json, unit,
          source, now);
      case StepConfirm(value, now) => ValidateValueKeeps(env, db, value, now);
      case StepReject(value, now) => RejectValueKeeps(env, db, value, now);
      case StepLink(evidence, value) => LinkEvidenceKeeps(env, db, evidence, value);
      case StepAccept(request, listed, now) => AcceptKeeps(env, db, request, listed, now);
    }
  }

  lemma ItemStepKeeps(env: Env, db: Db, step: Step)
    requires Inv(env, db) && Enabled(db, step)
    requires step.StepEvent? || step.StepIngest? || step.StepReview? || step.StepValidate? || step.StepPublish?
    ensures Inv(env, Apply(env, db, step))
  {
    hide CreateValue, ValidateValue, RejectValue, LinkEvidence, RejectEvidence, ChangeEvidence, Submit, OpenPortal,
        Accept;
    hide RecordEvent, Ingest, ReviewApplicability, Validate, Publish, AddModel, AddItem, AddEvidence, AddRequest, Inv;
    if Attempt(env, db, step).Done? {
      match step
      case StepEvent(item, kind, newStatus, previous) => RecordEventKeeps(env, db, item, kind, newStatus, previous);
      case StepIngest(item, readings) => IngestKeeps(env, db, item, readings);
      case StepReview(model, decisions, actor, at) => ReviewKeeps(env, db, model, decisions, actor, at);
      case StepValidate(item, now) => ValidateKeeps(env, db, item, now);
      case StepPublish(item, now, generatedAt, ruleSet, order) => PublishKeeps(env, db, item, now, generatedAt,
          ruleSet, order);
    }
  }

  lemma StepKeeps(env: Env, db: Db, step: Step)
    requires Inv(env, db) && Enabled(db, step)
    ensures Inv(env, Apply(env, db, step))
  {
    hide CreateValue, ValidateValue, RejectValue, LinkEvidence, RejectEvidence, ChangeEvidence, Submit, OpenPortal,
        Accept;
    hide RecordEvent, Ingest, ReviewApplicability, Validate, Publish, AddModel, AddItem, AddEvidence, AddRequest, Inv;
    if Attempt(env, db, step).Done? {
      match step
      case StepRejectEvidence(evidence) => RejectEvidenceKeeps(env, db, evidence);
      case StepChangeEvidence(evidence, moved) => ChangeEvidenceKeeps(env, db, evidence, moved);
      case StepSubmit(request, body, now) => SubmitKeeps(env, db, request, body, now);
      case StepOpen(request, now) => OpenPortalKeeps(env, db, request, now);
      case StepAddModel(model, identifier, category, context) => AddModelKeeps(env, db, model, identifier, category,
          context);
      case StepAddItem(item, model, publicId, serial, batch, upi, manufactured) =>
        AddItemKeeps(env, db, item, model, publicId, serial, batch, upi, manufactured);
      case StepAddEvidence(evidence) => AddEvidenceKeeps(env, db, evidence);
      case StepAddRequest(request, model, fields, expires) => AddRequestKeeps(env, db, request, model, fields, expires);
      case StepEvent(_, _, _, _) => ItemStepKeeps(env, db, step);
      case StepIngest(_, _) => ItemStepKeeps(env, db, step);
      case StepReview(_, _, _, _) => ItemStepKeeps(env, db, step);
      case StepValidate(_, _) => ItemStepKeeps(env, db, step);
      case StepPublish(_, _, _, _, _) => ItemStepKeeps(env, db, step);
      case _ => TableStepKeeps(env, db, step);
    }
  }

  lemma {:induction false} RunInv(env: Env, states: seq<Db>, steps: seq<Step>, n: nat)
    requires IsRun(env, states, steps) && n < |states|
    ensures Inv(env, states[n])
  {
    if n == 0 {
      EmptyInv(env);
    } else {
      RunInv(env, states, steps, n - 1);
      StepKeeps(env, states[n - 1], steps[n - 1]);
    }
  }

  // ---- main results ----

  /**
   In every run, the latest version of a published item has the battery block and
   the values, evidence ids as sets, of the document `publish` would write now.
   */
  lemma PublishedSaysWhatIsLive(env: Env, states: seq<Db>, steps: seq<Step>, n: nat, id: Id, order: Id -> seq<Id>)
    requires IsRun(env, states, steps) && n < |states| && HasModel(states[n], id)
    requires SM.IsPublished(states[n].items[id].state) && ListsLinks(order, states[n].table.links)
    ensures states[n].items[id].versions != []
    ensures var item := states[n].items[id];
            var doc := item.versions[|item.versions| - 1].document;
            var live := NextDocument(env, states[n], id, doc.generatedAt, doc.ruleSet, order);
            doc.battery == live.battery && Plain(doc.values) == Plain(live.values)
  {
    RunInv(env, states, steps, n);
    assert PublishedInv(env, states[n], id);
    DocumentIsLive(env, states[n].table, HolderOf(states[n], id), order, FIELDS);
  }

  /**
   And every field required of it now is still validated and linked to trusted evidence: none of it
   was rejected since.
   */
  lemma PublishedIsBacked(env: Env, states: seq<Db>, steps: seq<Step>, n: nat, id: Id, f: Field)
    requires IsRun(env, states, steps) && n < |states| && HasModel(states[n], id)
    requires SM.IsPublished(states[n].items[id].state) && Required(env, ModelOf(states[n], id), f)
    ensures Backed(env, states[n].table, states[n].evidence, HolderOf(states[n], id), f.id)
  {
    RunInv(env, states, steps, n);
    assert PublishedInv(env, states[n], id);
  }

  /** One current value for each owner and field, and supersedes links that form disjoint chains. */
  lemma ValuesStayChained(env: Env, states: seq<Db>, steps: seq<Step>, n: nat, a: Id, b: Id)
    requires IsRun(env, states, steps) && n < |states|
    requires a < b < |states[n].table.values|
    ensures Chained(states[n].table.values)
    ensures var values := states[n].table.values;
            && (values[a].until.None? && values[b].until.None? ==>
                values[a].owner != values[b].owner || values[a].field != values[b].field)
            && (values[b].supersedes.Some? ==>
                values[b].supersedes.value < b && values[a].supersedes != values[b].supersedes)
  {
    RunInv(env, states, steps, n);
  }

  /** The review calls the field applicable. */
  predicate DecidedApplicable(context: Context, id: int) {
    context.decisions.Some? &&
    exists i :: 0 <= i < |context.decisions.value| && context.decisions.value[i].Shaped?
                && context.decisions.value[i].d.applicable && context.decisions.value[i].d.fieldId == id
  }

  /** The field is mandatory for the category, or conditional and decided applicable. */
  predicate Demanded(env: Env, model: Model, f: Field) {
    && f in env.rules.fields
    && var r := RequirementFor(f, model.category);
    IsRequired(r) || (IsConditional(r) && DecidedApplicable(model.context, f.id))
  }

  lemma DemandedIsRequired(env: Env, model: Model, f: Field)
    requires Complete(env.rules, model.category, model.context)
    ensures Demanded(env, model, f) <==> Required(env, model, f)
  {
    CompleteIdsAreApplicable(env.rules, model.category, model.context, f.id);
    var stored := model.context.requiredIds.value;
    if f.id in ApplicableSet(model.context) {
      var e :| e in stored && e.IntegerId? && e.id == f.id;
      var k :| 0 <= k < |stored| && stored[k] == e;
      assert Integers(stored)[k] == f.id;
    }
    if f.id in Integers(stored) {
      var k :| 0 <= k < |stored| && Integers(stored)[k] == f.id;
      assert stored[k] in stored;
    }
  }

  /** The document has an entry for the field: a value, validated, with evidence usable at `now`. */
  predicate DocumentSupports(env: Env, evidence: map<Id, Evidence>, doc: Document, field: int, now: int) {
    exists v :: v in doc.values && EntrySupports(env, evidence, v, field, now)
  }

  predicate EntrySupports(env: Env, evidence: map<Id, Evidence>, v: DocValue, field: int, now: int) {
    && v.content.field == field && v.content.status == Validated
    && v.content.json != Null && v.content.json != Str("")
    && exists e :: e in v.evidenceIds && e in evidence && Usable(env, evidence[e], now)
  }

  /**
   What a version said when it was published: a complete review, and an entry with usable evidence
   for every field it demands.
   */
  ghost predicate PublishedSupported(env: Env, db: Db, id: Id, doc: Document, now: int)
    requires HasModel(db, id)
  {
    && Complete(env.rules, ModelOf(db, id).category, ModelOf(db, id).context)
    && forall f :: Demanded(env, ModelOf(db, id), f) ==> DocumentSupports(env, db.evidence, doc, f.id, now)
  }

  lemma SupportIsListed(env: Env, db: Db, h: Holder, order: Id -> seq<Id>, field: int, now: int)
    requires Supported(env, db, h, field, now) && ListsLinks(order, db.table.links)
    ensures exists v ::
              v in DocValues(env, db.table.values, h, order, FIELDS) && EntrySupports(env, db.evidence, v, field, now)
  {
    var id := MergedId(db.table.values, h, field).value;
    DocumentListsFields(env, db.table.values, h, order, FIELDS);
    var v :| v in DocValues(env, db.table.values, h, order, FIELDS) && v.content.field == field;
    assert IsMerged(env, db.table.values, h, order, v);
    var e :| e in UsableEvidence(env, db.table.links, db.evidence, id, now);
    assert Link(e, id) in db.table.links && e in EvidenceOf(db.table.links, id);
    assert e in SetOf(order(id));
    assert EntrySupports(env, db.evidence, v, field, now);
  }

  lemma PublishingSupports(env: Env, db: Db, id: Id, now: int, generatedAt: string, ruleSet: string,
                           order: Id -> seq<Id>)
    requires HasModel(db, id) && Publishable(env, db, id, now) && ListsLinks(order, db.table.links)
    ensures PublishedSupported(env, db, id, NextDocument(env, db, id, generatedAt, ruleSet, order), now)
  {
    forall f | Demanded(env, ModelOf(db, id), f)
      ensures DocumentSupports(env, db.evidence, NextDocument(env, db, id, generatedAt, ruleSet, order), f.id, now)
    {
      DemandedIsRequired(env, ModelOf(db, id), f);
      PublishableIsSupported(env, db, id, now, f);
      SupportIsListed(env, db, HolderOf(db, id), order, f.id, now);
      hide EntrySupports;
    }
  }

  /** An item's versions, however much its other columns change. */
  function VersionsOf(db: Db, id: Id): seq<Version> {
    if id in db.items then db.items[id].versions else []
  }

  predicate WritesOneItem(step: Step) {
    step.StepEvent? || step.StepIngest? || step.StepValidate? || step.StepPublish? || step.StepAddItem?
  }

  /** Every other step at most invalidates items. */
  lemma OtherStepsInvalidate(env: Env, db: Db, step: Step, id: Id)
    requires Enabled(db, step) && !WritesOneItem(step)
    ensures var after := Apply(env, db, step).items;
            && (id in after <==> id in db.items)
            && (id in after ==> after[id] == db.items[id] || after[id] == InvalidatedItem(db.items[id]))
  {
    hide RecordEvent, Ingest, Validate, Publish, AddItem, Put, AcceptAll, UsableEvidence;
    hide FirstProblem, WithPosted, Reviewed;
  }

  lemma OtherStepsKeepVersions(env: Env, db: Db, step: Step, id: Id)
    requires Enabled(db, step) && (step.StepPublish? ==> step.item != id)
    ensures VersionsOf(Apply(env, db, step), id) == VersionsOf(db, id)
  {
    hide CreateValue, ValidateValue, RejectValue, Accept, Submit, ReviewApplicability, RejectEvidence, LinkEvidence,
        Publishable;
    hide OpenPortal, ChangeEvidence, AddModel, AddEvidence, AddRequest, NextDocument;
    if !WritesOneItem(step) {
      OtherStepsInvalidate(env, db, step, id);
    }
  }

  lemma PublishAddsSupported(env: Env, db: Db, step: Step)
    requires step.StepPublish? && Enabled(db, step)
    ensures var id := step.item;
            var before, after := VersionsOf(db, id), VersionsOf(Apply(env, db, step), id);
            || after == before
            || (&& HasModel(db, id) && |after| == |before| + 1 && after[..|before|] == before
                && after[|before|].document == NextDocument(env, db, id, step.generatedAt, step.ruleSet, step.order)
                && PublishedSupported(env, db, id, after[|before|].document, step.now))
  {
    hide PublishedSupported;
    if Attempt(env, db, step).Done? {
      PublishingSupports(env, db, step.item, step.now, step.generatedAt, step.ruleSet, step.order);
    }
  }

  /** Only `publish` adds a version, one at the end, of an item whose required fields are all supported. */
  lemma VersionsGrowByPublishing(env: Env, db: Db, step: Step, id: Id)
    requires Enabled(db, step)
    ensures var before, after := VersionsOf(db, id), VersionsOf(Apply(env, db, step), id);
            || after == before
            || (&& step.StepPublish? && step.item == id && HasModel(db, id)
                && |after| == |before| + 1 && after[..|before|] == before
                && after[|before|].document == NextDocument(env, db, id, step.generatedAt, step.ruleSet, step.order)
                && PublishedSupported(env, db, id, after[|before|].document, step.now))
  {
    if step.StepPublish? && step.item == id {
      PublishAddsSupported(env, db, step);
    } else {
      OtherStepsKeepVersions(env, db, step, id);
    }
  }

  lemma VersionsOnlyGrow(env: Env, db: Db, step: Step, id: Id)
    requires Enabled(db, step)
    ensures VersionsOf(db, id) <= VersionsOf(Apply(env, db, step), id)
  {
    VersionsGrowByPublishing(env, db, step, id);
  }

  /** Earlier versions never change. */
  lemma {:induction false} VersionsNeverChange(env: Env, states: seq<Db>, steps: seq<Step>, m: nat, n: nat, id: Id)
    requires IsRun(env, states, steps) && m <= n < |states|
    ensures VersionsOf(states[m], id) <= VersionsOf(states[n], id)
    decreases n
  {
    hide Apply;
    if m < n {
      VersionsNeverChange(env, states, steps, m, n - 1, id);
      VersionsOnlyGrow(env, states[n - 1], steps[n - 1], id);
    }
  }

  /** Every version ever published was written by a publish step at which each required field had support. */
  lemma {:induction false} EveryVersionWasSupported(env: Env, states: seq<Db>, steps: seq<Step>, n: nat, id: Id,
                                                    k: nat) returns (m: nat)
    requires IsRun(env, states, steps) && n < |states| && k < |VersionsOf(states[n], id)|
    ensures m < n && steps[m].StepPublish? && steps[m].item == id && HasModel(states[m], id)
    ensures |VersionsOf(states[m], id)| == k
    ensures VersionsOf(states[n], id)[k].document ==
            NextDocument(env, states[m], id, steps[m].generatedAt, steps[m].ruleSet, steps[m].order)
    ensures PublishedSupported(env, states[m], id, VersionsOf(states[n], id)[k].document, steps[m].now)
    decreases n
  {
    hide Apply;
    VersionsGrowByPublishing(env, states[n - 1], steps[n - 1], id);
    if k < |VersionsOf(states[n - 1], id)| {
      m := EveryVersionWasSupported(env, states, steps, n - 1, id, k);
    } else {
      m := n - 1;
    }
  }

  // ---- passport identifiers ----

  function UpiAt(db: Db, id: Id): Option<string> {
    if id in db.items then db.items[id].upi else None
  }

  /**
   A step keeps an item's identifier, gives one to an item without, or replaces an empty one, and
   never one that is taken.
   */
  lemma StepKeepsUpi(env: Env, db: Db, step: Step, id: Id)
    requires Enabled(db, step)
    ensures var before, after := UpiAt(db, id), UpiAt(Apply(env, db, step), id);
            || after == before
            || (&& after.Some? && !UpiTaken(db, id, after.value) && (before.Some? ==> before.value == "")
                && (step.StepPublish? || step.StepAddItem?) && step.item == id)
  {
    hide CreateValue, ValidateValue, RejectValue, Accept, Submit, ReviewApplicability, RejectEvidence, LinkEvidence,
        Publishable;
    hide OpenPortal, ChangeEvidence, AddModel, AddEvidence, AddRequest, NextDocument;
    if !WritesOneItem(step) {
      OtherStepsInvalidate(env, db, step, id);
    }
  }

  /** No two items carry the same passport identifier. */
  predicate UpisApart(db: Db) {
    forall a, b :: a in db.items && b in db.items && a != b && db.items[a].upi.Some? ==>
        db.items[a].upi != db.items[b].upi
  }

  lemma {:induction false} UpisStayApart(env: Env, states: seq<Db>, steps: seq<Step>, n: nat)
    requires IsRun(env, states, steps) && n < |states|
    ensures UpisApart(states[n])
  {
    hide Apply, Enabled;
    if n > 0 {
      UpisStayApart(env, states, steps, n - 1);
      assert Enabled(states[n - 1], steps[n - 1]) && states[n] == Apply(env, states[n - 1], steps[n - 1]);
      forall a, b | a in states[n].items && b in states[n].items && a != b && states[n].items[a].upi.Some?
        ensures states[n].items[a].upi != states[n].items[b].upi
      {
        StepKeepsUpi(env, states[n - 1], steps[n - 1], a);
        StepKeepsUpi(env, states[n - 1], steps[n - 1], b);
      }
    }
  }

  /** A recycled item is frozen: state, lifecycle, versions, snapshots, events and readings. */
  lemma RecycledIsFrozen(env: Env, db: Db, step: Step, id: Id)
    requires Inv(env, db) && Enabled(db, step) && id in db.items && db.items[id].state == SM.Recycled
    ensures id in Apply(env, db, step).items && Apply(env, db, step).items[id] == db.items[id]
  {
    if !WritesOneItem(step) {
      OtherStepsInvalidate(env, db, step, id);
    } else {
      assert ItemInv(env, id, db.items[id]);
      RecycledIsRefused(env, db, step, id);
    }
  }

  lemma RecycledIsRefused(env: Env, db: Db, step: Step, id: Id)
    requires WritesOneItem(step) && Enabled(db, step) && id in db.items && db.items[id].state == SM.Recycled
    ensures step.item == id ==> Attempt(env, db, step).Refused?
    ensures id in Apply(env, db, step).items && Apply(env, db, step).items[id] == db.items[id]
  {
    hide CreateValue, ValidateValue, RejectValue, Accept, Submit, ReviewApplicability, RejectEvidence, LinkEvidence,
        Publishable;
    hide OpenPortal, ChangeEvidence, AddModel, AddEvidence, AddRequest, NextDocument;
  }

  lemma {:induction false} RecycledStaysFrozen(env: Env, states: seq<Db>, steps: seq<Step>, m: nat, n: nat, id: Id)
    requires IsRun(env, states, steps) && m <= n < |states|
    requires id in states[m].items && states[m].items[id].state == SM.Recycled
    ensures id in states[n].items && states[n].items[id] == states[m].items[id]
    decreases n
  {
    hide Apply;
    if m < n {
      RecycledStaysFrozen(env, states, steps, m, n - 1, id);
      RunInv(env, states, steps, n - 1);
      RecycledIsFrozen(env, states[n - 1], steps[n - 1], id);
    }
  }

  lemma RequestStepKeepsAccepted(env: Env, db: Db, step: Step, request: Id)
    requires Enabled(db, step) && request in db.requests && db.requests[request].status == AcceptedRequest
    requires step.StepSubmit? || step.StepOpen? || step.StepAccept? || step.StepAddRequest?
    ensures request in Apply(env, db, step).requests && Apply(env, db, step).requests[request] == db.requests[request]
    ensures step.StepAccept? && step.request == request ==> Attempt(env, db, step).Refused?
  {
    hide CreateValue, ValidateValue, RejectValue, LinkEvidence, RejectEvidence, ChangeEvidence, RecordEvent, Ingest;
    hide ReviewApplicability, Validate, Publish, AddModel, AddItem, AddEvidence, FirstProblem, WithPosted, AcceptAll,
        Invalidate;
  }

  lemma OtherStepKeepsRequests(env: Env, db: Db, step: Step)
    requires Enabled(db, step) && !step.StepSubmit? && !step.StepOpen? && !step.StepAccept? && !step.StepAddRequest?
    ensures Apply(env, db, step).requests == db.requests
  {
    hide Submit, OpenPortal, Accept, AddRequest, Invalidate, Publishable, NextDocument, WithVersion, Reviewed, Put,
        UsableEvidence;
  }

  lemma StepKeepsAccepted(env: Env, db: Db, step: Step, request: Id)
    requires Enabled(db, step) && request in db.requests && db.requests[request].status == AcceptedRequest
    ensures request in Apply(env, db, step).requests && Apply(env, db, step).requests[request] == db.requests[request]
    ensures step.StepAccept? && step.request == request ==> Attempt(env, db, step).Refused?
  {
    hide Apply, Attempt, Enabled;
    if step.StepSubmit? || step.StepOpen? || step.StepAccept? || step.StepAddRequest? {
      RequestStepKeepsAccepted(env, db, step, request);
    } else {
      OtherStepKeepsRequests(env, db, step);
    }
  }

  /** An accepted request never changes again and is never accepted again. */
  lemma {:induction false} AcceptedStaysAccepted(env: Env, states: seq<Db>, steps: seq<Step>, m: nat, n: nat,
                                                 request: Id)
    requires IsRun(env, states, steps) && m <= n < |states|
    requires request in states[m].requests && states[m].requests[request].status == AcceptedRequest
    ensures request in states[n].requests && states[n].requests[request] == states[m].requests[request]
    ensures n < |steps| && steps[n].StepAccept? && steps[n].request == request ==>
            Attempt(env, states[n], steps[n]).Refused?
    decreases n
  {
    hide Apply, Attempt;
    if m < n {
      AcceptedStaysAccepted(env, states, steps, m, n - 1, request);
      StepKeepsAccepted(env, states[n - 1], steps[n - 1], request);
    }
    if n < |steps| {
      StepKeepsAccepted(env, states[n], steps[n], request);
    }
  }

  /** Acceptance makes the last submission of each field, in the listed order, its current value. */
  lemma AcceptTakesTheLast(env: Env, db: Db, request: Id, listed: seq<Id>, now: int, last: Id)
    requires Inv(env, db) && request in db.requests && Ordered(db.requests[request].submissions, listed)
    requires Accept(db, request, listed, now).Done?
    requires last in db.requests[request].submissions
    requires var s := db.requests[request].submissions;
             forall other :: other in s && other != last && s[other].field == s[last].field ==>
               s[other].at < s[last].at || (s[other].at == s[last].at && other < last)
    ensures var after := Accept(db, request, listed, now).db;
            && after.requests[request].status == AcceptedRequest
            && CurrentCarries(after.table, db.requests[request].model, db.requests[request].submissions[last])
  {
    var r := db.requests[request];
    assert RequestOk(db, r);
    var k :| 0 <= k < |listed| && listed[k] == last;
    var subs := Listed(r.submissions, listed);
    forall i | k < i < |subs| ensures subs[i].field != subs[k].field {
      assert Earlier(r.submissions, listed[k], listed[i]);
    }
    LastSubmissionWins(db.table, r.model, subs, now, k);
  }
}
