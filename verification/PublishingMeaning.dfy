/** When an item may be published and what its new version says, in terms of the stored rows. */
module PublishingMeaning {
  import opened Prelude
  import opened CanonicalJson
  import CO = CanonicalOrder
  import opened Catalogue
  import opened Readiness
  import opened Applicability
  import AM = ApplicabilityMeaning
  import opened PassportValues
  import opened PassportTables
  import opened PassportSteps
  import opened PassportMeaning
  import opened PassportInvariant
  import opened PassportRuns
  import SM = StateMachine

  // ---- which row counts ----

  /** An owner has at most one current row of a field. */
  ghost predicate OneRowEach(values: Values) {
    forall i, j :: 0 <= i < j < |values| && values[i].until == None && values[j].until == None ==>
      values[i].owner != values[j].owner || values[i].field != values[j].field
  }

  /** The row an item shows for a field: its own current one; without one, its model's. */
  ghost predicate RowFor(values: Values, item: Id, model: Id, field: int, k: Id) {
    || CurrentRow(values, k, OfItem(item), field)
    || (CurrentRow(values, k, OfModel(model), field) && forall j :: !CurrentRow(values, j, OfItem(item), field))
  }

  lemma MergedMeans(values: Values, h: Holder, field: int)
    requires OneRowEach(values)
    ensures forall k: Id :: MergedId(values, h, field) == Some(k) <==> RowFor(values, h.item, h.model, field, k)
  {
    hide CurrentId, CurrentRow;
    CurrentMeans(values, OfItem(h.item), field);
    CurrentMeans(values, OfModel(h.model), field);
  }

  lemma CurrentMeans(values: Values, owner: Owner, field: int)
    requires OneRowEach(values)
    ensures forall k: Id :: CurrentId(values, owner, field) == Some(k) <==> CurrentRow(values, k, owner, field)
  {
    forall k: Id | CurrentRow(values, k, owner, field) ensures CurrentId(values, owner, field) == Some(k) {
      CurrentIsUnique(values, owner, field, k);
    }
  }

  // ---- when an item may be published ----

  /** Mandatory for the category, or conditional and decided applicable to the model. */
  ghost predicate AskedOf(m: Model, f: Field) {
    || Always(f, m.category)
    || (OnCondition(f, m.category)
        && m.context.requiredIds.Some? && IntegerId(f.id) in m.context.requiredIds.value)
  }

  /** The row has a value, is validated and rests on good evidence. */
  ghost predicate Stands(env: Env, db: Db, k: Id, now: int) {
    && k < |db.table.values|
    && db.table.values[k].json != Null && db.table.values[k].json != Str("")
    && db.table.values[k].status == Validated && RestsOnGoodEvidence(env, db, k, now)
  }

  ghost predicate InOrder(x: Number, y: Number) {
    x != NaN && y != NaN && (x == MinusInfinity || y == PlusInfinity || (x.Finite? && y.Finite? && x.r <= y.r))
  }

  /** The number the item shows for a field. */
  ghost predicate Shows(env: Env, db: Db, id: Id, field: int, x: Number)
    requires id in db.items
  {
    exists k: Id :: RowFor(db.table.values, id, db.items[id].model, field, k)
        && env.number(db.table.values[k].json) == Some(x)
  }

  /** Voltages 26, 27, 28 in order; capacity 11 and weight 10 positive; not made in the future. */
  ghost predicate NumbersFit(env: Env, db: Db, id: Id, now: int)
    requires id in db.items
  {
    && (forall x, y, z :: Shows(env, db, id, 26, x) && Shows(env, db, id, 27, y) && Shows(env, db, id, 28, z) ==>
          InOrder(x, y) && InOrder(y, z))
    && (forall x :: Shows(env, db, id, 11, x) || Shows(env, db, id, 10, x) ==>
          x == NaN || x == PlusInfinity || (x.Finite? && x.r > 0.0))
    && (forall t :: db.items[id].manufactured == Some(t) ==> t <= now)
  }

  /** Field 67 says what the lifecycle column says; "re-used" is accepted for "reused". */
  ghost predicate SaysLifecycle(json: Json, l: Lifecycle) {
    match l
    case Original => json == Str("original")
    case Repurposed => json == Str("repurposed")
    case Reused => json == Str("reused") || json == Str("re-used")
    case Remanufactured => json == Str("remanufactured")
    case Waste => json == Str("waste")
    case EndOfLife => json == Str("recycled")
  }

  /**
   An item is publishable exactly when it is open, the review of its model is complete, every
   field asked of it stands, its numbers fit and field 67 names its lifecycle status.
   */
  lemma PublishableMeans(env: Env, db: Db, id: Id, now: int)
    requires OneRowEach(db.table.values) && id in db.items && db.items[id].model in db.models
    ensures var item := db.items[id];
            var m := db.models[item.model];
            Publishable(env, db, id, now) <==>
            && Alive(db, OfItem(id))
            && Complete(env.rules, m.category, m.context)
            && (forall f :: f in env.rules.fields && AskedOf(m, f) ==>
                  1 <= f.id <= 71
                  && exists k: Id :: RowFor(db.table.values, id, item.model, f.id, k) && Stands(env, db, k, now))
            && NumbersFit(env, db, id, now)
            && (forall k: Id :: RowFor(db.table.values, id, item.model, 67, k) ==>
                  SaysLifecycle(db.table.values[k].json, item.lifecycle))
  {
    hide RequiredNow, Proven, ValueOf, Inputs, AskedOf, RowFor, Stands, Complete, CrossFieldsOk, NumbersFit,
        MergedId, Ids;
    var item := db.items[id];
    var m, h := db.models[item.model], Holder(id, item.model);
    var inputs := Inputs(env, db, h, now, FIELDS);
    ReadyMeansProven(env.rules.fields, m.category, inputs, ApplicableSet(m.context));
    forall f | f in env.rules.fields
      ensures RequiredNow(f, m.category, ApplicableSet(m.context)) <==> AskedOf(m, f)
      ensures Proven(ValueOf(inputs, f.id)) <==>
              1 <= f.id <= 71
              && exists k: Id :: RowFor(db.table.values, id, item.model, f.id, k) && Stands(env, db, k, now)
    {
      RequiredMeansAsked(m, f);
      ProvenMeansStands(env, db, h, now, f.id);
    }
    FitsMeans(env, db, id, now);
    MergedMeans(db.table.values, h, 67);
  }

  lemma RequiredMeansAsked(m: Model, f: Field)
    ensures RequiredNow(f, m.category, ApplicableSet(m.context)) <==> AskedOf(m, f)
  {
  }

  lemma ProvenMeansStands(env: Env, db: Db, h: Holder, now: int, field: int)
    requires OneRowEach(db.table.values)
    ensures Proven(ValueOf(Inputs(env, db, h, now, FIELDS), field)) <==>
            1 <= field <= 71
            && exists k: Id :: RowFor(db.table.values, h.item, h.model, field, k) && Stands(env, db, k, now)
  {
    hide ValueOf, Inputs, MergedId, RowFor, UsableEvidence, RestsOnGoodEvidence;
    InputsByField(env, db, h, now, FIELDS, field);
    MergedMeans(db.table.values, h, field);
    var id := MergedId(db.table.values, h, field);
    if id.Some? {
      UsableMeansGood(env, db, id.value, now);
    }
  }

  lemma ShownMeans(env: Env, db: Db, id: Id, field: int)
    requires OneRowEach(db.table.values) && id in db.items
    ensures var x := NumberAt(env, db.table.values, Holder(id, db.items[id].model), field);
            forall y :: Shows(env, db, id, field, y) <==> x == Some(y)
  {
    hide MergedId, RowFor;
    MergedMeans(db.table.values, Holder(id, db.items[id].model), field);
  }

  lemma OrderMeans(x: Number, y: Number)
    ensures AtMost(x, y) <==> InOrder(x, y)
  {
  }

  lemma FitsMeans(env: Env, db: Db, id: Id, now: int)
    requires OneRowEach(db.table.values) && id in db.items
    ensures CrossFieldsOk(env, db.table.values, Holder(id, db.items[id].model), db.items[id].manufactured, now) <==>
            NumbersFit(env, db, id, now)
  {
    hide NumberAt, Shows, AtMost, InOrder;
    ShownMeans(env, db, id, 26);
    ShownMeans(env, db, id, 27);
    ShownMeans(env, db, id, 28);
    ShownMeans(env, db, id, 11);
    ShownMeans(env, db, id, 10);
    forall x, y ensures AtMost(x, y) <==> InOrder(x, y) {
      OrderMeans(x, y);
    }
    PositiveMeans();
  }

  lemma PositiveMeans()
    ensures forall x :: !AtMost(x, Finite(0.0)) <==> x == NaN || x == PlusInfinity || (x.Finite? && x.r > 0.0)
  {
  }

  // ---- what a version says ----

  /** The entry says what the row says, under the catalogue's name and tier, with the row's evidence. */
  ghost predicate SaysRow(env: Env, t: Table, k: Id, v: DocValue) {
    && k < |t.values|
    && var row, c := t.values[k], v.content;
    && c.field == row.field && c.json == row.json && c.unit == row.unit && c.status == row.status
    && c.source == row.source
    && (forall e :: e in v.evidenceIds <==> Link(e, k) in t.links)
    && (if exists f :: f in env.rules.fields && f.id == row.field
        then exists f :: f in env.rules.fields && f.id == row.field && c.name == Some(f.name) && c.tier == Some(f.tier)
        else c.name == None && c.tier == None)
  }

  lemma {:induction false} FieldByIdMeans(fields: seq<Field>, id: int)
    ensures var f := FieldById(fields, id);
            if exists g :: g in fields && g.id == id then f.Some? && f.value in fields && f.value.id == id
                else f == None
    decreases |fields|
  {
    if fields != [] {
      var front, last := fields[..|fields| - 1], fields[|fields| - 1];
      FieldByIdMeans(front, id);
      assert forall g :: g in fields <==> g in front || g == last;
    }
  }

  /** The document lists, by ascending field, exactly the rows the item shows, and says what they say. */
  lemma DocumentSaysRows(env: Env, t: Table, h: Holder, order: Id -> seq<Id>)
    requires OneRowEach(t.values) && ListsLinks(order, t.links)
    ensures var list := DocValues(env, t.values, h, order, FIELDS);
            && (forall i, j :: 0 <= i < j < |list| ==> list[i].content.field < list[j].content.field)
            && (forall v :: v in list ==>
                  1 <= v.content.field <= 71
                  && exists k: Id :: RowFor(t.values, h.item, h.model, v.content.field, k) && SaysRow(env, t, k, v))
            && (forall f, k: Id :: 1 <= f <= 71 && RowFor(t.values, h.item, h.model, f, k) ==>
                  exists v :: v in list && v.content.field == f)
  {
    hide DocValues, RowFor, SaysRow, MergedId, ListsLinks;
    var list := DocValues(env, t.values, h, order, FIELDS);
    DocumentListsFields(env, t.values, h, order, FIELDS);
    forall f ensures forall k: Id :: MergedId(t.values, h, f) == Some(k) <==> RowFor(t.values, h.item, h.model, f, k) {
      MergedMeans(t.values, h, f);
    }
    forall f, k: Id | 1 <= f <= 71 && RowFor(t.values, h.item, h.model, f, k)
      ensures exists v :: v in list && v.content.field == f
    {
      assert MergedId(t.values, h, f) == Some(k);
    }
    forall v | v in list
      ensures exists k: Id :: RowFor(t.values, h.item, h.model, v.content.field, k) && SaysRow(env, t, k, v)
    {
      assert IsMerged(env, t.values, h, order, v);
      EntrySaysRow(env, t, h, order, v);
    }
  }

  lemma EntrySaysRow(env: Env, t: Table, h: Holder, order: Id -> seq<Id>, v: DocValue)
    requires ListsLinks(order, t.links) && IsMerged(env, t.values, h, order, v)
    ensures SaysRow(env, t, MergedId(t.values, h, v.content.field).value, v)
  {
    hide MergedId, FieldById;
    var k := MergedId(t.values, h, v.content.field).value;
    FieldByIdMeans(env.rules.fields, t.values[k].field);
    forall e ensures e in v.evidenceIds <==> Link(e, k) in t.links {
      assert e in v.evidenceIds <==> e in SetOf(order(k));
      if Link(e, k) in t.links {
        assert e in EvidenceOf(t.links, k);
      }
    }
  }

  // ---- publishing ----

  /** The identifier an item is published under: its own, if it has one that is not empty. */
  ghost predicate PublishedAs(env: Env, item: Item, upi: string) {
    if item.upi != None && item.upi != Some("") then item.upi == Some(upi) else upi == env.upiFor(item.publicId)
  }

  /** The next version: numbered and chained after the last, its hash that of the document it holds. */
  ghost predicate NextVersionSays(env: Env, was: seq<Version>, v: Version, ruleSet: string, generatedAt: string,
                                  now: int) {
    && v.versionNo == (if was == [] then 1 else was[|was| - 1].versionNo + 1)
    && v.previous == (if was == [] then None else Some(was[|was| - 1].sha256))
    && v.sha256 == CO.Sha256(CO.Canonicalize(DocumentJson(env, v.document)))
    && v.schemaVersion == "eubatterypassport.v2" && v.document.schema == "eubatterypassport.v2"
    && v.ruleSet == ruleSet && v.document.ruleSet == ruleSet && v.document.generatedAt == generatedAt
    && v.published && v.at == Some(now)
  }

  /** The document's battery is the item and its model. */
  ghost predicate SaysItem(b: Battery, id: Id, item: Item, m: Model, upi: string) {
    && b.id == id && b.publicId == item.publicId && b.model == item.model && b.identifier == m.identifier
    && b.serial == item.serial && b.batch == item.batch && b.upi == upi && b.category == m.category
    && b.lifecycle == Some(item.lifecycle)
  }

  /** Of the snapshots only the new one is active; the others are otherwise as they were. */
  ghost predicate OnlyNewActive(env: Env, was: seq<Snapshot>, after: seq<Snapshot>, v: Version) {
    && |after| == |was| + 1
    && (forall i :: 0 <= i < |was| ==> after[i] == was[i].(active := false))
    && var shown := after[|was|];
    && shown == Snapshot(v.versionNo, Project(env, v.document),
                         CO.Sha256(CO.Canonicalize(PublicJson(env, shown.content))),
                         true)
  }

  /** What publishing makes of an item. */
  ghost predicate PublishedAfter(env: Env, db: Db, id: Id, now: int, generatedAt: string, ruleSet: string,
                                 order: Id -> seq<Id>, after: Item)
    requires id in db.items && db.items[id].model in db.models
  {
    var was := db.items[id];
    && after == was.(state := SM.Published, upi := after.upi, versions := after.versions, snapshots := after.snapshots)
    && after.upi.Some? && PublishedAs(env, was, after.upi.value)
    && |after.versions| == |was.versions| + 1 && after.versions[..|was.versions|] == was.versions
    && var v := after.versions[|was.versions|];
    && NextVersionSays(env, was.versions, v, ruleSet, generatedAt, now)
    && SaysItem(v.document.battery, id, was, db.models[was.model], after.upi.value)
    && v.document.values == DocValues(env, db.table.values, Holder(id, was.model), order, 71)
    && OnlyNewActive(env, was.snapshots, after.snapshots, v)
  }

  lemma VersionMeans(env: Env, db: Db, id: Id, now: int, generatedAt: string, ruleSet: string, order: Id -> seq<Id>)
    requires id in db.items && db.items[id].model in db.models
    ensures PublishedAfter(env, db, id, now, generatedAt, ruleSet, order,
                           WithVersion(env, db.items[id], NextDocument(env, db, id, generatedAt, ruleSet, order), now))
  {
    hide DocValues, Project, DocumentJson, PublicJson, CO.Canonicalize;
  }

  /** A ready or updated item that is publishable, under an identifier no other item has, gets its next version. */
  lemma PublishMeans(env: Env, db: Db, id: Id, now: int, generatedAt: string, ruleSet: string, order: Id -> seq<Id>)
    ensures var r := Publish(env, db, id, now, generatedAt, ruleSet, order);
            && (r.Done? <==>
                  && Alive(db, OfItem(id)) && db.items[id].state in {SM.Ready, SM.Updated}
                  && Publishable(env, db, id, now)
                  && forall upi, other :: PublishedAs(env, db.items[id], upi) && other in db.items && other != id ==>
                       db.items[other].upi != Some(upi))
            && (r.Done? ==>
                  && r.db == db.(items := db.items[id := r.db.items[id]])
                  && PublishedAfter(env, db, id, now, generatedAt, ruleSet, order, r.db.items[id]))
  {
    hide Publishable, PublishedAfter, WithVersion, NextDocument, UpiOf, PublishedAs, LockOwner, Alive;
    LockedMeansAlive(db, OfItem(id));
    OwnerIsItem(db, id);
    if id in db.items && db.items[id].model in db.models {
      UpiMeans(env, db.items[id]);
      VersionMeans(env, db, id, now, generatedAt, ruleSet, order);
    }
  }

  lemma OwnerIsItem(db: Db, id: Id)
    ensures LockOwner(db, OfItem(id)) == LockItem(db, id)
    ensures Alive(db, OfItem(id)) ==> id in db.items && db.items[id].model in db.models
  {
  }

  lemma UpiMeans(env: Env, item: Item)
    ensures forall upi :: PublishedAs(env, item, upi) <==> upi == UpiOf(env, item)
  {
  }

  // ---- runs ----

  ghost function Listing(ids: set<Id>): (r: seq<Id>)
    ensures SetOf(r) == ids
  {
    if ids == {} then []
    else
      var e :| e in ids;
      var rest := Listing(ids - {e});
      assert SetOf([e] + rest) == {e} + SetOf(rest);
      [e] + rest
  }

  lemma SaysAsPlain(env: Env, t: Table, k: Id, v: DocValue, w: DocValue)
    requires SaysRow(env, t, k, v) && w.content == v.content && SetOf(w.evidenceIds) == SetOf(v.evidenceIds)
    ensures SaysRow(env, t, k, w)
  {
    forall e ensures e in w.evidenceIds <==> e in v.evidenceIds {
      assert e in w.evidenceIds <==> e in SetOf(w.evidenceIds);
    }
  }

  /** The entry says what the row says that the item shows for its field. */
  ghost predicate SaysShownRow(env: Env, db: Db, id: Id, v: DocValue)
    requires id in db.items
  {
    exists k: Id :: RowFor(db.table.values, id, db.items[id].model, v.content.field, k) && SaysRow(env, db.table, k, v)
  }

  ghost predicate ShowsField(db: Db, id: Id, field: int)
    requires id in db.items
  {
    exists k: Id :: RowFor(db.table.values, id, db.items[id].model, field, k)
  }

  ghost predicate HasEntry(list: seq<DocValue>, field: int) {
    exists i :: 0 <= i < |list| && list[i].content.field == field
  }

  /** The entries are, in ascending order of fields, the rows the item shows: no row is missing, no entry is stale. */
  ghost predicate SaysTheRows(env: Env, db: Db, id: Id, list: seq<DocValue>)
    requires id in db.items
  {
    && (forall i, j :: 0 <= i < j < |list| ==> list[i].content.field < list[j].content.field)
    && (forall i :: 0 <= i < |list| ==> SaysShownRow(env, db, id, list[i]))
    && (forall f :: 1 <= f <= 71 && ShowsField(db, id, f) ==> HasEntry(list, f))
  }

  lemma LiveSaysTheRows(env: Env, db: Db, id: Id, order: Id -> seq<Id>, list: seq<DocValue>)
    requires id in db.items && OneRowEach(db.table.values) && ListsLinks(order, db.table.links)
    requires Plain(list) == Plain(DocValues(env, db.table.values, Holder(id, db.items[id].model), order, FIELDS))
    ensures SaysTheRows(env, db, id, list)
  {
    hide DocValues, RowFor, SaysRow, ListsLinks, Plain;
    var h := Holder(id, db.items[id].model);
    var live := DocValues(env, db.table.values, h, order, FIELDS);
    DocumentSaysRows(env, db.table, h, order);
    SameEntries(live, list);
    forall i | 0 <= i < |list| ensures SaysShownRow(env, db, id, list[i]) {
      assert live[i] in live;
      var k: Id :| RowFor(db.table.values, h.item, h.model, live[i].content.field, k)
                   && SaysRow(env, db.table, k, live[i]);
      SaysAsPlain(env, db.table, k, live[i], list[i]);
    }
    forall f | 1 <= f <= 71 && ShowsField(db, id, f) ensures HasEntry(list, f) {
      var v :| v in live && v.content.field == f;
      var i :| 0 <= i < |live| && live[i] == v;
      assert list[i].content.field == f;
    }
  }

  lemma SameEntries(live: seq<DocValue>, list: seq<DocValue>)
    requires Plain(list) == Plain(live)
    ensures |list| == |live|
    ensures forall i :: 0 <= i < |list| ==>
              list[i].content == live[i].content && SetOf(list[i].evidenceIds) == SetOf(live[i].evidenceIds)
  {
    assert |list| == |Plain(list)| == |live|;
    forall i | 0 <= i < |list|
      ensures list[i].content == live[i].content && SetOf(list[i].evidenceIds) == SetOf(live[i].evidenceIds)
    {
      assert Plain(list)[i] == Plain(live)[i];
    }
  }

  /** The row has a value, is validated, and rests on verified evidence, scanned where scans are required. */
  ghost predicate Rests(env: Env, db: Db, k: Id) {
    && k < |db.table.values|
    && db.table.values[k].json != Null && db.table.values[k].json != Str("")
    && db.table.values[k].status == Validated
    && exists e :: e in db.evidence && Link(e, k) in db.table.links && db.evidence[e].status == Verified
                   && (env.scanRequired ==> db.evidence[e].scanned)
  }

  /** The document says the item and the rows it shows. */
  ghost predicate SaysNow(env: Env, db: Db, id: Id, doc: Document)
    requires id in db.items && db.items[id].model in db.models
  {
    var item := db.items[id];
    && SaysTheRows(env, db, id, doc.values)
    && exists upi :: PublishedAs(env, item, upi) && SaysItem(doc.battery, id, item, db.models[item.model], upi)
  }

  /**
   In every run, the last version of a published item says its battery and the rows it shows now, and
   each field asked of it has a validated row that rests on verified evidence.
   */
  lemma PublishedSaysTheRows(env: Env, states: seq<Db>, steps: seq<Step>, n: nat, id: Id)
    requires IsRun(env, states, steps) && n < |states|
    requires id in states[n].items && states[n].items[id].model in states[n].models
    requires states[n].items[id].state in {SM.Published, SM.Registered, SM.RegistryPending}
    ensures var versions := states[n].items[id].versions;
            versions != [] && SaysNow(env, states[n], id, versions[|versions| - 1].document)
    ensures var m := states[n].items[id].model;
            forall f :: f in env.rules.fields && AskedOf(states[n].models[m], f) ==>
              exists k: Id :: RowFor(states[n].table.values, id, m, f.id, k) && Rests(env, states[n], k)
  {
    hide IsRun, RowFor, SaysTheRows, SaysItem, PublishedAs, Required, Backed, DocValues, OneRowEach, AskedOf, Rests,
      LiveBattery, ListsLinks, Plain;
    var db := states[n];
    var item, order := db.items[id], Listed(db.table.links);
    RowsOfRuns(env, states, steps, n);
    PublishedSaysWhatIsLive(env, states, steps, n, id, order);
    var doc := item.versions[|item.versions| - 1].document;
    LiveSaysTheRows(env, db, id, order, doc.values);
    LiveSaysItem(env, db, id);
    forall f | f in env.rules.fields && AskedOf(db.models[item.model], f)
      ensures exists k: Id :: RowFor(db.table.values, id, item.model, f.id, k) && Rests(env, db, k)
    {
      IsRequired(env, db.models[item.model], f);
      PublishedIsBacked(env, states, steps, n, id, f);
      BackedMeans(env, db, id, f.id);
    }
  }

  /** Some order in which the evidence of every row is listed. */
  ghost function Listed(links: set<Link>): (r: Id -> seq<Id>)
    ensures ListsLinks(r, links)
  {
    (k: Id) => Listing(EvidenceOf(links, k))
  }

  lemma LiveSaysItem(env: Env, db: Db, id: Id)
    requires id in db.items && db.items[id].model in db.models
    ensures var item, m := db.items[id], db.models[db.items[id].model];
            exists upi :: PublishedAs(env, item, upi) && SaysItem(LiveBattery(env, id, item, m), id, item, m, upi)
  {
    UpiMeans(env, db.items[id]);
    assert PublishedAs(env, db.items[id], UpiOf(env, db.items[id]));
  }

  lemma RowsOfRuns(env: Env, states: seq<Db>, steps: seq<Step>, n: nat)
    requires IsRun(env, states, steps) && n < |states|
    ensures OneRowEach(states[n].table.values)
  {
    RunInv(env, states, steps, n);
  }

  lemma BackedMeans(env: Env, db: Db, id: Id, field: int)
    requires id in db.items && OneRowEach(db.table.values)
    requires Backed(env, db.table, db.evidence, HolderOf(db, id), field)
    ensures exists k: Id :: RowFor(db.table.values, id, db.items[id].model, field, k) && Rests(env, db, k)
  {
    MergedMeans(db.table.values, HolderOf(db, id), field);
    var k := MergedId(db.table.values, HolderOf(db, id), field).value;
    assert RowFor(db.table.values, id, db.items[id].model, field, k) && Rests(env, db, k);
  }

  lemma IsRequired(env: Env, m: Model, f: Field)
    requires f in env.rules.fields && AskedOf(m, f)
    ensures Required(env, m, f)
  {
    RequiredMeansAsked(m, f);
  }
}
