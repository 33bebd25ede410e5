/**
 What holds of a tenant's rows between transactions, above all that a published
 passport says what the live rows say, and the proof that every step keeps it.
 */
module PassportInvariant {
  import opened Prelude
  import opened CanonicalJson
  import CO = CanonicalOrder
  import opened Catalogue
  import opened Applicability
  import opened PassportValues
  import opened PassportTables
  import opened PassportSteps
  import SM = StateMachine

  // ---- rows ----

  predicate RequestOk(db: Db, r: SupplierRequest) {
    && (forall f :: f in r.fields ==> 1 <= f <= FIELDS)
    && (forall id :: id in r.submissions ==>
          r.submissions[id].field in r.fields && r.submissions[id].evidence <= db.evidence.Keys)
  }

  /** Keys refer to stored rows, and the value table is chained. */
  predicate RowsInv(db: Db) {
    && Chained(db.table.values) && LinksKnown(db.table)
    && (forall l :: l in db.table.links ==> l.evidence in db.evidence)
    && (forall id :: id in db.items ==> db.items[id].model in db.models)
    && (forall id :: id in db.requests ==> RequestOk(db, db.requests[id]))
  }

  // ---- one item's own history ----

  /** Versions are numbered 1..n, each names its predecessor's hash, and each hash is of the version's own document. */
  ghost predicate HistoryInv(env: Env, id: Id, item: Item) {
    forall k :: 0 <= k < |item.versions| ==> VersionInv(env, id, item, k)
  }

  predicate VersionInv(env: Env, id: Id, item: Item, k: nat)
    requires k < |item.versions|
  {
    var v := item.versions[k];
    && v.versionNo == k + 1
    && v.previous == (if k == 0 then None else Some(item.versions[k - 1].sha256))
    && v.sha256 == CO.HashJson(DocumentJson(env, v.document))
    && v.schemaVersion == v.document.schema && v.ruleSet == v.document.ruleSet
    && v.published && v.at.Some?
    && v.document.battery.id == id && v.document.battery.model == item.model
       && v.document.battery.publicId == item.publicId
  }

  /** One snapshot per version; only the last is active, and it shows the latest version's projection. */
  predicate SnapshotInv(env: Env, item: Item) {
    && |item.snapshots| == |item.versions|
    && forall k :: 0 <= k < |item.snapshots| ==>
         && item.snapshots[k].versionNo == k + 1
         && item.snapshots[k].content == Project(env, item.versions[k].document)
         && item.snapshots[k].sha256 == CO.HashJson(PublicJson(env, item.snapshots[k].content))
         && (item.snapshots[k].active <==> k == |item.snapshots| - 1)
  }

  /** The recorded transitions lead from "original" to the current lifecycle status without a gap. */
  predicate EventInv(item: Item) {
    && (item.events == [] ==> item.lifecycle == Original)
    && (item.events != [] ==> item.events[0].start == Original && item.events[|item.events| - 1].end == item.lifecycle)
    && (forall k :: 0 <= k < |item.events| - 1 ==> item.events[k].end == item.events[k + 1].start)
    && (forall k :: 0 <= k < |item.events| ==>
          item.events[k].end == if StatusFor(item.events[k].kind).Some? then StatusFor(item.events[k].kind).value
              else item.events[k].start)
  }

  predicate StateInv(item: Item) {
    && item.state != SM.Superseded
    && (item.state == SM.Recycled <==> item.lifecycle == EndOfLife)
    && (SM.IsPublished(item.state) ==> item.versions != [])
  }

  ghost predicate ItemInv(env: Env, id: Id, item: Item) {
    HistoryInv(env, id, item) && SnapshotInv(env, item) && EventInv(item) && StateInv(item)
  }

  // ---- a published passport agrees with the live rows ----

  /** Verified bytes, with a recorded clean scan where scans are required. */
  predicate Trusted(env: Env, e: Evidence) {
    e.status == Verified && (env.scanRequired ==> e.scanned)
  }

  predicate HasTrusted(env: Env, t: Table, evidence: map<Id, Evidence>, id: Id) {
    exists e :: e in evidence && Trusted(env, evidence[e]) && Link(e, id) in t.links
  }

  predicate Backed(env: Env, t: Table, evidence: map<Id, Evidence>, h: Holder, field: int) {
    var id := MergedId(t.values, h, field);
    && id.Some?
    && t.values[id.value].json != Null && t.values[id.value].json != Str("")
    && t.values[id.value].status == Validated
    && HasTrusted(env, t, evidence, id.value)
  }

  ghost predicate PublicationHolds(env: Env, t: Table, evidence: map<Id, Evidence>, id: Id, item: Item, model: Model) {
    && item.versions != []
    && Agrees(env, t, id, item, model, item.versions[|item.versions| - 1].document)
    && forall f :: Required(env, model, f) ==> Backed(env, t, evidence, Holder(id, item.model), f.id)
  }

  ghost predicate PublishedInv(env: Env, db: Db, id: Id)
    requires HasModel(db, id)
  {
    SM.IsPublished(db.items[id].state) ==>
        PublicationHolds(env, db.table, db.evidence, id, db.items[id], ModelOf(db, id))
  }

  ghost predicate Inv(env: Env, db: Db) {
    && RowsInv(db)
    && (forall id :: id in db.items ==> ItemInv(env, id, db.items[id]))
    && (forall id :: HasModel(db, id) ==> PublishedInv(env, db, id))
  }

  lemma InvIsChained(env: Env, db: Db)
    requires Inv(env, db)
    ensures Chained(db.table.values)
  {
  }

  // ---- what a writer does ----

  /** Only the owners' rows are written, and none of their items is left published. */
  ghost predicate Writes(env: Env, db: Db, after: Db, owners: set<Owner>) {
    && Touches(db.table.values, db.table.links, after.table.values, after.table.links, owners)
    && (forall m :: m in db.models ==> m in after.models && (OfModel(m) !in owners ==> after.models[m] == db.models[m]))
    && (forall id :: id in after.items && SM.IsPublished(after.items[id].state) ==>
          id in db.items && after.items[id] == db.items[id] && !Belongs(id, db.items[id], owners))
    && (forall l :: l in db.table.links && l.evidence in db.evidence && Trusted(env, db.evidence[l.evidence]) ==>
          || (l.evidence in after.evidence && Trusted(env, after.evidence[l.evidence]))
          || (l.value < |db.table.values| && db.table.values[l.value].owner in owners))
  }

  lemma BackingStays(env: Env, db: Db, after: Db, owners: set<Owner>, h: Holder, field: int)
    requires RowsInv(db) && RowsInv(after) && Writes(env, db, after, owners)
    requires OfItem(h.item) !in owners && OfModel(h.model) !in owners
    requires Backed(env, db.table, db.evidence, h, field)
    ensures Backed(env, after.table, after.evidence, h, field)
  {
    UntouchedStays(db.table.values, db.table.links, after.table.values, after.table.links, owners, OfItem(h.item),
                   field);
    UntouchedStays(db.table.values, db.table.links, after.table.values, after.table.links, owners, OfModel(h.model),
                   field);
    var id := MergedId(db.table.values, h, field).value;
    var e :| e in db.evidence && Trusted(env, db.evidence[e]) && Link(e, id) in db.table.links;
    assert Link(e, id) in after.table.links && Trusted(env, after.evidence[e]);
  }

  /** The one argument behind every writer: what stays published was not touched. */
  lemma WriterKeepsPublication(env: Env, db: Db, after: Db, owners: set<Owner>, id: Id)
    requires Inv(env, db) && RowsInv(after) && Writes(env, db, after, owners) && HasModel(after, id)
    ensures PublishedInv(env, after, id)
  {
    hide Backed, LiveContent, ItemInv, EvidenceOf;
    var item := after.items[id];
    if SM.IsPublished(item.state) {
      assert HasModel(db, id) && PublishedInv(env, db, id);
      LiveContentStays(env, db.table, after.table, owners, Holder(id, item.model), FIELDS);
      forall f | Required(env, ModelOf(after, id), f)
        ensures Backed(env, after.table, after.evidence, Holder(id, item.model), f.id)
      {
        assert Required(env, ModelOf(db, id), f);
        BackingStays(env, db, after, owners, Holder(id, item.model), f.id);
      }
    }
  }

  lemma WriterKeeps(env: Env, db: Db, after: Db, owners: set<Owner>)
    requires Inv(env, db) && RowsInv(after) && Writes(env, db, after, owners)
    requires forall id :: id in after.items ==> ItemInv(env, id, after.items[id])
    ensures Inv(env, after)
  {
    forall id | HasModel(after, id) ensures PublishedInv(env, after, id) {
      WriterKeepsPublication(env, db, after, owners, id);
    }
  }

  // ---- items under invalidation ----

  lemma SameVersions(env: Env, id: Id, a: Item, b: Item)
    requires HistoryInv(env, id, a) && b.versions == a.versions && b.model == a.model && b.publicId == a.publicId
    ensures HistoryInv(env, id, b)
  {
    forall k | 0 <= k < |b.versions| ensures VersionInv(env, id, b, k) {
      assert VersionInv(env, id, a, k);
    }
  }

  /** The state is not part of an item's history. */
  lemma StateKeepsHistory(env: Env, id: Id, item: Item, state: SM.State)
    requires ItemInv(env, id, item) && !SM.IsClosed(item.state) && !SM.IsClosed(state)
    requires SM.IsPublished(state) ==> SM.IsPublished(item.state)
    ensures ItemInv(env, id, item.(state := state))
  {
    SameVersions(env, id, item, item.(state := state));
    hide HistoryInv;
  }

  lemma InvalidateKeepsItems(env: Env, items: map<Id, Item>, owners: set<Owner>)
    requires forall id :: id in items ==> ItemInv(env, id, items[id])
    ensures forall id :: id in Invalidate(items, owners) ==> ItemInv(env, id, Invalidate(items, owners)[id])
    ensures forall id :: id in items && SM.IsPublished(Invalidate(items, owners)[id].state) ==>
              Invalidate(items, owners)[id] == items[id] && !Belongs(id, items[id], owners)
  {
    hide ItemInv;
    forall id | id in items ensures ItemInv(env, id, Invalidate(items, owners)[id]) {
      if SM.IsClosed(items[id].state) {
        assert InvalidatedItem(items[id]) == items[id];
      } else {
        StateKeepsHistory(env, id, items[id], SM.Invalidated(items[id].state));
      }
    }
  }

  // ---- each writer ----

  /** The table after a write for the owners, which are then invalidated. */
  ghost predicate TableWrite(db: Db, table: Table, owners: set<Owner>) {
    && Chained(table.values) && LinksKnown(table)
    && (forall l :: l in table.links ==> l.evidence in db.evidence)
    && Touches(db.table.values, db.table.links, table.values, table.links, owners)
  }

  lemma TableWriteWrites(env: Env, db: Db, table: Table, owners: set<Owner>)
    requires RowsInv(db) && TableWrite(db, table, owners)
    requires forall id :: id in db.items ==> ItemInv(env, id, db.items[id])
    ensures var after := db.(table := table, items := Invalidate(db.items, owners));
            RowsInv(after) && Writes(env, db, after, owners) && forall id :: id in after.items ==>
                ItemInv(env, id, after.items[id])
  {
    InvalidateKeepsItems(env, db.items, owners);
    var after := db.(table := table, items := Invalidate(db.items, owners));
    forall r | r in after.requests ensures RequestOk(after, after.requests[r]) {
      assert RequestOk(db, db.requests[r]);
    }
  }

  lemma TableWriteKeeps(env: Env, db: Db, table: Table, owners: set<Owner>)
    requires Inv(env, db) && TableWrite(db, table, owners)
    ensures Inv(env, db.(table := table, items := Invalidate(db.items, owners)))
  {
    TableWriteWrites(env, db, table, owners);
    WriterKeeps(env, db, db.(table := table, items := Invalidate(db.items, owners)), owners);
  }

  lemma CreateValueKeeps(env: Env, db: Db, owner: Owner, field: int, json: Json, unit: Option<string>,
                         source: Source, now: int)
    requires Inv(env, db) && CreateValue(db, owner, field, json, unit, source, now).Done?
    ensures Inv(env, CreateValue(db, owner, field, json, unit, source, now).db)
  {
    PutKeeps(db.table.values, owner, field, json, unit, source, Unvalidated, now);
    var values := Put(db.table.values, owner, field, json, unit, source, Unvalidated, now);
    TableWriteKeeps(env, db, db.table.(values := values), {owner});
  }

  lemma ValidateValueKeeps(env: Env, db: Db, id: Id, now: int)
    requires Inv(env, db) && ValidateValue(env, db, id, now).Done?
    ensures Inv(env, ValidateValue(env, db, id, now).db)
  {
    var v := db.table.values[id];
    if v.status == Validated {
      assert Confirm(db.table.values, id) == db.table.values;
    } else {
      ConfirmKeeps(db.table.values, id);
      TableWriteKeeps(env, db, db.table.(values := Confirm(db.table.values, id)), {v.owner});
    }
  }

  lemma RejectValueKeeps(env: Env, db: Db, id: Id, now: int)
    requires Inv(env, db) && RejectValue(db, id, now).Done?
    ensures Inv(env, RejectValue(db, id, now).db)
  {
    CloseKeeps(db.table.values, id, now);
    TableWriteKeeps(env, db, db.table.(values := Close(db.table.values, id, Rejected, now)),
                    {db.table.values[id].owner});
  }

  lemma LinkEvidenceKeeps(env: Env, db: Db, evidence: Id, id: Id)
    requires Inv(env, db) && LinkEvidence(db, evidence, id).Done?
    ensures Inv(env, LinkEvidence(db, evidence, id).db)
  {
    TableWriteKeeps(env, db, db.table.(links := db.table.links + {Link(evidence, id)}), {db.table.values[id].owner});
  }

  lemma RejectEvidenceKeeps(env: Env, db: Db, evidence: Id)
    requires Inv(env, db) && RejectEvidence(db, evidence).Done?
    ensures Inv(env, RejectEvidence(db, evidence).db)
  {
    var owners, after := LinkedOwners(db.table, evidence), RejectEvidence(db, evidence).db;
    forall r | r in after.requests ensures RequestOk(after, after.requests[r]) {
      assert RequestOk(db, db.requests[r]);
    }
    InvalidateKeepsItems(env, db.items, owners);
    WriterKeeps(env, db, after, owners);
  }

  lemma ChangeEvidenceKeeps(env: Env, db: Db, evidence: Id, moved: Evidence)
    requires Inv(env, db) && ChangeEvidence(db, evidence, moved).Done?
    ensures Inv(env, ChangeEvidence(db, evidence, moved).db)
  {
    var after := ChangeEvidence(db, evidence, moved).db;
    forall r | r in after.requests ensures RequestOk(after, after.requests[r]) {
      assert RequestOk(db, db.requests[r]);
    }
    WriterKeeps(env, db, after, {});
  }

  lemma AcceptKeeps(env: Env, db: Db, request: Id, order: seq<Id>, now: int)
    requires Inv(env, db) && (request in db.requests ==> Ordered(db.requests[request].submissions, order))
    requires Accept(db, request, order, now).Done?
    ensures Inv(env, Accept(db, request, order, now).db)
  {
    var r, after := db.requests[request], Accept(db, request, order, now).db;
    assert RequestOk(db, r);
    AcceptAllKeeps(db.table, r.model, Listed(r.submissions, order), now);
    AcceptedLinksKnown(db, r.model, Listed(r.submissions, order), now);
    TableWriteKeeps(env, db, AcceptAll(db.table, r.model, Listed(r.submissions, order), now), {OfModel(r.model)});
    RequestStatusKeeps(env, after.(requests := db.requests), request, AcceptedRequest);
  }

  lemma RequestStatusKeeps(env: Env, db: Db, request: Id, status: RequestStatus)
    requires Inv(env, db) && request in db.requests
    ensures Inv(env, db.(requests := db.requests[request := db.requests[request].(status := status)]))
  {
    RequestsKeep(env, db, db.requests[request := db.requests[request].(status := status)]);
  }

  /** No passport shows a supplier request. */
  lemma RequestsKeep(env: Env, db: Db, requests: map<Id, SupplierRequest>)
    requires Inv(env, db) && forall k :: k in requests ==> RequestOk(db, requests[k])
    ensures Inv(env, db.(requests := requests))
  {
    var after := db.(requests := requests);
    forall k | k in after.requests ensures RequestOk(after, after.requests[k]) {
      assert RequestOk(db, requests[k]);
    }
    forall id | HasModel(after, id) ensures PublishedInv(env, after, id) {
      assert HasModel(db, id) && PublishedInv(env, db, id);
    }
  }

  lemma {:induction false} AcceptedLinksKnown(db: Db, model: Id, submissions: seq<Submission>, now: int)
    requires forall l :: l in db.table.links ==> l.evidence in db.evidence
    requires forall i :: 0 <= i < |submissions| ==> submissions[i].evidence <= db.evidence.Keys
    ensures forall l :: l in AcceptAll(db.table, model, submissions, now).links ==> l.evidence in db.evidence
    decreases |submissions|
  {
    if submissions != [] {
      AcceptedLinksKnown(db, model, submissions[..|submissions| - 1], now);
    }
  }

  lemma NotedKeepsEvents(item: Item, kind: EventKind)
    requires EventInv(item) && StateInv(item) && IsOpen(item)
    ensures EventInv(Noted(item, kind)) && StateInv(Noted(item, kind)) && !SM.IsPublished(Noted(item, kind).state)
  {
  }

  lemma NotedKeepsSnapshots(env: Env, item: Item, kind: EventKind)
    requires SnapshotInv(env, item)
    ensures SnapshotInv(env, Noted(item, kind))
    ensures var noted := Noted(item, kind);
            noted.versions == item.versions && noted.model == item.model && noted.publicId == item.publicId
  {
    hide Project, PublicJson;
  }

  lemma NotedKeepsItem(env: Env, id: Id, item: Item, kind: EventKind)
    requires ItemInv(env, id, item) && IsOpen(item)
    ensures ItemInv(env, id, Noted(item, kind)) && !SM.IsPublished(Noted(item, kind).state)
  {
    hide HistoryInv, SnapshotInv, EventInv, StateInv, Noted;
    NotedKeepsEvents(item, kind);
    NotedKeepsSnapshots(env, item, kind);
    SameVersions(env, id, item, Noted(item, kind));
  }

  /** Adding or replacing an item by one that is not published writes no other. */
  lemma OneItemWrites(env: Env, db: Db, id: Id, item: Item)
    requires RowsInv(db) && item.model in db.models && !SM.IsPublished(item.state)
    ensures var after := db.(items := db.items[id := item]); RowsInv(after) && Writes(env, db, after, {OfItem(id)})
  {
  }

  lemma OneItemKeeps(env: Env, db: Db, id: Id, item: Item)
    requires Inv(env, db) && item.model in db.models
    requires ItemInv(env, id, item) && !SM.IsPublished(item.state)
    ensures Inv(env, db.(items := db.items[id := item]))
  {
    var after := db.(items := db.items[id := item]);
    OneItemWrites(env, db, id, item);
    forall k | k in after.items ensures ItemInv(env, k, after.items[k]) {
      assert k in db.items ==> ItemInv(env, k, db.items[k]);
    }
    WriterKeeps(env, db, after, {OfItem(id)});
  }

  lemma RecordEventKeeps(env: Env, db: Db, id: Id, kind: EventKind, newStatus: Option<Lifecycle>, previous: Option<nat>)
    requires Inv(env, db) && RecordEvent(db, id, kind, newStatus, previous).Done?
    ensures Inv(env, RecordEvent(db, id, kind, newStatus, previous).db)
  {
    hide HistoryInv, SnapshotInv, EventInv, StateInv, PublishedInv, RowsInv, Noted;
    NotedKeepsSnapshots(env, db.items[id], kind);
    NotedKeepsItem(env, id, db.items[id], kind);
    OneItemKeeps(env, db, id, Noted(db.items[id], kind));
  }

  lemma IngestKeeps(env: Env, db: Db, id: Id, readings: seq<Json>)
    requires Inv(env, db) && Ingest(db, id, readings).Done?
    ensures Inv(env, Ingest(db, id, readings).db)
  {
    ReadingsKeepItem(env, id, db.items[id], readings);
    OneItemKeeps(env, db, id, InvalidatedItem(db.items[id].(readings := db.items[id].readings + readings)));
  }

  lemma ReadingsKeepItem(env: Env, id: Id, item: Item, readings: seq<Json>)
    requires ItemInv(env, id, item) && IsOpen(item)
    ensures ItemInv(env, id, InvalidatedItem(item.(readings := item.readings + readings)))
  {
    var read := item.(readings := item.readings + readings);
    SameVersions(env, id, item, read);
    hide HistoryInv;
    assert EventInv(read) && StateInv(read) && SnapshotInv(env, read);
    StateKeepsHistory(env, id, read, SM.Invalidated(item.state));
  }

  lemma ReviewKeeps(env: Env, db: Db, model: Id, decisions: seq<Decision>, actor: string, at: string)
    requires Inv(env, db) && ReviewApplicability(env, db, model, decisions, actor, at).Done?
    ensures Inv(env, ReviewApplicability(env, db, model, decisions, actor, at).db)
  {
    InvalidateKeepsItems(env, db.items, {OfModel(model)});
    WriterKeeps(env, db, ReviewApplicability(env, db, model, decisions, actor, at).db, {OfModel(model)});
  }

  // ---- validate and publish ----

  lemma ValidateKeeps(env: Env, db: Db, id: Id, now: int)
    requires Inv(env, db) && Validate(env, db, id, now).Done?
    ensures Inv(env, Validate(env, db, id, now).db)
  {
    hide Publishable, PublishedInv;
    var item, state := db.items[id], SM.Validated(db.items[id].state, Publishable(env, db, id, now));
    if state == item.state {
      assert db.items[id := item.(state := state)] == db.items;
    } else {
      StateKeepsHistory(env, id, item, state);
      OneItemKeeps(env, db, id, item.(state := state));
    }
  }

  lemma ValidateIsDone(env: Env, db: Db, id: Id, now: int)
    ensures LockItem(db, id).Some? ==> Validate(env, db, id, now) == Refused(LockItem(db, id).value)
    ensures LockItem(db, id).None? ==>
              var item := db.items[id];
              var state := SM.Validated(item.state, Publishable(env, db, id, now));
              Validate(env, db, id, now) == Done(db.(items := db.items[id := item.(state := state)]))
  {
    hide Publishable;
  }

  lemma WithVersionKeepsHistory(env: Env, id: Id, item: Item, doc: Document, now: int)
    requires HistoryInv(env, id, item) && doc.schema == SCHEMA
    requires doc.battery.id == id && doc.battery.model == item.model && doc.battery.publicId == item.publicId
    ensures HistoryInv(env, id, WithVersion(env, item, doc, now))
  {
    var after, n := WithVersion(env, item, doc, now), |item.versions|;
    assert n > 0 ==> VersionInv(env, id, item, n - 1);
    forall k | 0 <= k < |after.versions| ensures VersionInv(env, id, after, k) {
      if k < n {
        assert VersionInv(env, id, item, k);
      }
    }
  }

  lemma WithVersionKeepsSnapshots(env: Env, id: Id, item: Item, doc: Document, now: int)
    requires HistoryInv(env, id, item) && SnapshotInv(env, item)
    ensures SnapshotInv(env, WithVersion(env, item, doc, now))
  {
    hide Project, PublicJson, DocumentJson, UpiOf;
    var n := |item.versions|;
    assert n > 0 ==> VersionInv(env, id, item, n - 1);
  }

  lemma WithVersionKeepsItem(env: Env, id: Id, item: Item, doc: Document, now: int)
    requires ItemInv(env, id, item) && IsOpen(item) && doc.schema == SCHEMA
    requires doc.battery.id == id && doc.battery.model == item.model && doc.battery.publicId == item.publicId
    ensures ItemInv(env, id, WithVersion(env, item, doc, now))
  {
    WithVersionKeepsHistory(env, id, item, doc, now);
    WithVersionKeepsSnapshots(env, id, item, doc, now);
  }

  /** Usable evidence is trusted. */
  lemma SupportedIsBacked(env: Env, db: Db, h: Holder, field: int, now: int)
    requires Supported(env, db, h, field, now)
    ensures Backed(env, db.table, db.evidence, h, field)
  {
    var id := MergedId(db.table.values, h, field).value;
    var e :| e in UsableEvidence(env, db.table.links, db.evidence, id, now);
    assert Link(e, id) in db.table.links;
  }

  /** What `publish` writes agrees with the rows it read. */
  lemma NextDocumentAgrees(env: Env, db: Db, id: Id, now: int, generatedAt: string, ruleSet: string,
                           order: Id -> seq<Id>)
    requires HasModel(db, id) && ListsLinks(order, db.table.links)
    ensures var doc := NextDocument(env, db, id, generatedAt, ruleSet, order);
            var after := WithVersion(env, db.items[id], doc, now);
            && Agrees(env, db.table, id, after, ModelOf(db, id), doc)
            && doc.schema == SCHEMA && doc.battery.id == id && doc.battery.model == db.items[id].model
            && doc.battery.publicId == db.items[id].publicId
            && after.model == db.items[id].model && after.versions != []
            && after.versions[|after.versions| - 1].document == doc
  {
    DocumentIsLive(env, db.table, HolderOf(db, id), order, FIELDS);
  }

  lemma PublishHolds(env: Env, db: Db, id: Id, now: int, generatedAt: string, ruleSet: string, order: Id -> seq<Id>)
    requires Inv(env, db) && ListsLinks(order, db.table.links) && HasModel(db, id) && Publishable(env, db, id, now)
    ensures var doc := NextDocument(env, db, id, generatedAt, ruleSet, order);
            PublicationHolds(env, db.table, db.evidence, id, WithVersion(env, db.items[id], doc, now), ModelOf(db, id))
  {
    hide Publishable, NextDocument, WithVersion, Backed, Required, Agrees, Supported, ItemInv, ListsLinks, PublishedInv;
    NextDocumentAgrees(env, db, id, now, generatedAt, ruleSet, order);
    forall f | Required(env, ModelOf(db, id), f) ensures Backed(env, db.table, db.evidence, HolderOf(db, id), f.id) {
      PublishableIsSupported(env, db, id, now, f);
      SupportedIsBacked(env, db, HolderOf(db, id), f.id, now);
    }
  }

  lemma PublishKeeps(env: Env, db: Db, id: Id, now: int, generatedAt: string, ruleSet: string, order: Id -> seq<Id>)
    requires Inv(env, db) && ListsLinks(order, db.table.links)
    requires Publish(env, db, id, now, generatedAt, ruleSet, order).Done?
    ensures Inv(env, Publish(env, db, id, now, generatedAt, ruleSet, order).db)
  {
    hide Publishable, NextDocument, PublicationHolds, ItemInv, ListsLinks, WithVersion, RowsInv, PublishedInv, Agrees;
    var doc := NextDocument(env, db, id, generatedAt, ruleSet, order);
    PublishHolds(env, db, id, now, generatedAt, ruleSet, order);
    NextDocumentAgrees(env, db, id, now, generatedAt, ruleSet, order);
    WithVersionKeepsItem(env, id, db.items[id], doc, now);
    PublishedItemKeeps(env, db, id, WithVersion(env, db.items[id], doc, now));
  }

  lemma PublishIsDone(env: Env, db: Db, id: Id, now: int, generatedAt: string, ruleSet: string, order: Id -> seq<Id>)
    requires LockItem(db, id).None? && (db.items[id].state == SM.Ready || db.items[id].state == SM.Updated)
    requires Publishable(env, db, id, now) && !UpiTaken(db, id, UpiOf(env, db.items[id]))
    ensures Publish(env, db, id, now, generatedAt, ruleSet, order) == Done(db.(items :=
              db.items[id := WithVersion(env, db.items[id], NextDocument(env, db, id, generatedAt, ruleSet, order),
                                         now)]))
  {
    hide Publishable, WithVersion, NextDocument;
  }

  /** Replacing an item by one whose publication holds leaves the others as they were. */
  lemma PublishedItemKeeps(env: Env, db: Db, id: Id, item: Item)
    requires Inv(env, db) && HasModel(db, id) && item.model == db.items[id].model && ItemInv(env, id, item)
    requires PublicationHolds(env, db.table, db.evidence, id, item, ModelOf(db, id))
    ensures Inv(env, db.(items := db.items[id := item]))
  {
    var after := db.(items := db.items[id := item]);
    forall k | k in after.items ensures ItemInv(env, k, after.items[k]) {
      assert k in db.items ==> ItemInv(env, k, db.items[k]);
    }
    OneItemRows(db, id, item);
    forall k | HasModel(after, k) ensures PublishedInv(env, after, k) {
      if k != id {
        assert HasModel(db, k) && PublishedInv(env, db, k);
        OtherPublicationStays(env, db, id, item, k);
      } else {
        ThisPublicationHolds(env, db, id, item);
      }
    }
  }

  lemma OneItemRows(db: Db, id: Id, item: Item)
    requires RowsInv(db) && item.model in db.models
    ensures RowsInv(db.(items := db.items[id := item]))
  {
    var after := db.(items := db.items[id := item]);
    forall k | k in after.requests ensures RequestOk(after, after.requests[k]) {
      assert RequestOk(db, db.requests[k]);
    }
  }

  lemma ThisPublicationHolds(env: Env, db: Db, id: Id, item: Item)
    requires HasModel(db, id) && item.model == db.items[id].model
    requires PublicationHolds(env, db.table, db.evidence, id, item, ModelOf(db, id))
    ensures PublishedInv(env, db.(items := db.items[id := item]), id)
  {
  }

  lemma OtherPublicationStays(env: Env, db: Db, id: Id, item: Item, k: Id)
    requires HasModel(db, k) && PublishedInv(env, db, k) && k != id
    ensures PublishedInv(env, db.(items := db.items[id := item]), k)
  {
  }

  // ---- rows that no passport shows yet ----

  /** Every submission stored is one that was there or one of the body. */
  lemma {:induction false} StoredOrigin(submissions: map<Id, Submission>, body: seq<Posted>, id: Id)
    requires id in WithPosted(submissions, body)
    ensures (id in submissions && WithPosted(submissions, body)[id] == submissions[id]) ||
            exists k :: 0 <= k < |body| && body[k] == Posted(id, WithPosted(submissions, body)[id])
    decreases |body|
  {
    if body != [] && id != body[|body| - 1].id {
      StoredOrigin(submissions, body[..|body| - 1], id);
    } else if body != [] {
      assert body[|body| - 1] == Posted(id, WithPosted(submissions, body)[id]);
    }
  }

  lemma {:induction false} NoProblem(body: seq<Posted>, fields: set<int>, known: set<Id>, k: nat)
    requires FirstProblem(body, fields, known).None? && k < |body|
    ensures body[k].s.field in fields && body[k].s.evidence <= known
    decreases |body|
  {
    if k > 0 {
      NoProblem(body[1..], fields, known, k - 1);
    }
  }

  lemma SubmittedOk(db: Db, r: SupplierRequest, body: seq<Posted>)
    requires RequestOk(db, r) && FirstProblem(body, r.fields, db.evidence.Keys).None?
    ensures RequestOk(db, r.(submissions := WithPosted(r.submissions, body), status := SubmittedRequest))
  {
    var stored := WithPosted(r.submissions, body);
    forall id | id in stored ensures stored[id].field in r.fields && stored[id].evidence <= db.evidence.Keys {
      StoredOrigin(r.submissions, body, id);
      if !(id in r.submissions && stored[id] == r.submissions[id]) {
        var k :| 0 <= k < |body| && body[k] == Posted(id, stored[id]);
        NoProblem(body, r.fields, db.evidence.Keys, k);
      }
    }
  }

  lemma SubmitKeeps(env: Env, db: Db, request: Id, body: seq<Posted>, now: int)
    requires Inv(env, db) && Submit(db, request, body, now).Done?
    ensures Inv(env, Submit(db, request, body, now).db)
  {
    var after := Submit(db, request, body, now).db.requests;
    SubmittedOk(db, db.requests[request], body);
    forall k | k in after ensures RequestOk(db, after[k]) {
      assert RequestOk(db, db.requests[k]);
    }
    RequestsKeep(env, db, after);
  }

  lemma OpenPortalKeeps(env: Env, db: Db, request: Id, now: int)
    requires Inv(env, db) && OpenPortal(db, request, now).Done?
    ensures Inv(env, OpenPortal(db, request, now).db)
  {
    RequestsKeep(env, db, OpenPortal(db, request, now).db.requests);
  }

  lemma AddModelKeeps(env: Env, db: Db, id: Id, identifier: string, category: Category, context: Context)
    requires Inv(env, db) && AddModel(db, id, identifier, category, context).Done?
    ensures Inv(env, AddModel(db, id, identifier, category, context).db)
  {
    WriterKeeps(env, db, AddModel(db, id, identifier, category, context).db, {});
  }

  lemma AddItemKeeps(env: Env, db: Db, id: Id, model: Id, publicId: string, serial: string, batch: Option<string>,
                     upi: Option<string>, manufactured: Option<int>)
    requires Inv(env, db) && AddItem(db, id, model, publicId, serial, batch, upi, manufactured).Done?
    ensures Inv(env, AddItem(db, id, model, publicId, serial, batch, upi, manufactured).db)
  {
    var item := AddItem(db, id, model, publicId, serial, batch, upi, manufactured).db.items[id];
    assert ItemInv(env, id, item);
    OneItemKeeps(env, db, id, item);
  }

  lemma AddEvidenceKeeps(env: Env, db: Db, id: Id)
    requires Inv(env, db) && AddEvidence(db, id).Done?
    ensures Inv(env, AddEvidence(db, id).db)
  {
    var after := AddEvidence(db, id).db;
    forall r | r in after.requests ensures RequestOk(after, after.requests[r]) {
      assert RequestOk(db, db.requests[r]);
    }
    WriterKeeps(env, db, after, {});
  }

  lemma AddRequestKeeps(env: Env, db: Db, id: Id, model: Id, fields: set<int>, expires: int)
    requires Inv(env, db) && AddRequest(db, id, model, fields, expires).Done?
    ensures Inv(env, AddRequest(db, id, model, fields, expires).db)
  {
    RequestsKeep(env, db, AddRequest(db, id, model, fields, expires).db.requests);
  }
}
