/** The rows of one tenant's passports, and what is read from them: merged values, readiness, the canonical document. */
module PassportTables {
  import opened Prelude
  import opened CanonicalJson
  import CO = CanonicalOrder
  import opened Catalogue
  import opened Readiness
  import opened Applicability
  import opened PassportValues
  import SM = StateMachine

  datatype Lifecycle = Original | Repurposed | Reused | Remanufactured | Waste | EndOfLife

  datatype EvidenceStatus = PendingUpload | Uploaded | Unverified | Verified | RejectedEvidence | SupersededEvidence

  /** `scanned`: a clean scan of these very bytes in an immutable version is recorded. */
  datatype Evidence = Evidence(status: EvidenceStatus, issued: Option<int>, expires: Option<int>, scanned: bool)

  datatype Model = Model(identifier: string, category: Category, context: Context)

  datatype Event = Event(kind: EventKind, start: Lifecycle, end: Lifecycle)

  datatype EventKind = StatusChange | Repair | Accident | Repurpose | Reuse | Remanufacture | Recycle

  datatype Item = Item(
    model: Id, publicId: string, serial: string, batch: Option<string>, upi: Option<string>, manufactured: Option<int>,
    lifecycle: Lifecycle, state: SM.State,
    versions: seq<Version>, snapshots: seq<Snapshot>, events: seq<Event>, readings: seq<Json>)

  datatype Version = Version(
    versionNo: nat, schemaVersion: string, ruleSet: string, document: Document,
    sha256: CO.Digest, previous: Option<CO.Digest>, published: bool, at: Option<int>)

  datatype Snapshot = Snapshot(versionNo: nat, content: Document, sha256: CO.Digest, active: bool)

  datatype RequestStatus =
    | DraftRequest | Sent | OpenedRequest | PartiallySubmitted | SubmittedRequest
    | AcceptedRequest | RejectedRequest | Expired | Cancelled

  datatype SupplierRequest = SupplierRequest(
    model: Id, fields: set<int>, status: RequestStatus, expires: int, submissions: map<Id, Submission>)

  datatype Db = Db(
    models: map<Id, Model>, items: map<Id, Item>, table: Table,
    evidence: map<Id, Evidence>, requests: map<Id, SupplierRequest>)

  /** A JavaScript number. */
  datatype Number = NaN | MinusInfinity | Finite(r: real) | PlusInfinity

  /**
   Deployment settings and spellings. `number` is what `Number` makes of a JSON number or of text
   that is not blank.
   */
  datatype Env = Env(
    rules: Rules, scanRequired: bool, upiFor: string -> string, idText: Id -> string, number: Json -> Option<Number>)

  // ---- the canonical document ----

  datatype Battery = Battery(
    publicId: string, id: Id, model: Id, identifier: string, serial: string, batch: Option<string>, upi: string,
    category: Category, lifecycle: Option<Lifecycle>)

  datatype Content = Content(
    field: int, name: Option<string>, json: Json, unit: Option<string>, tier: Option<Tier>, status: Status,
        source: Source)

  datatype DocValue = DocValue(content: Content, evidenceIds: seq<Id>)

  datatype Document = Document(schema: string, ruleSet: string, generatedAt: string, battery: Battery,
                               values: seq<DocValue>)

  const SCHEMA := "eubatterypassport.v2"

  // ---- merged values ----

  /** An item together with the model whose values it inherits. */
  datatype Holder = Holder(item: Id, model: Id)

  /** The item's own current value of a field, else its model's. */
  function MergedId(values: Values, h: Holder, field: int): (r: Option<Id>)
    ensures r.Some? ==> r.value < |values| && values[r.value].field == field && values[r.value].until.None?
    ensures r.Some? ==> values[r.value].owner == OfItem(h.item) || values[r.value].owner == OfModel(h.model)
  {
    var own := CurrentId(values, OfItem(h.item), field);
    if own.Some? then own else CurrentId(values, OfModel(h.model), field)
  }

  function FieldById(fields: seq<Field>, id: int): Option<Field> {
    if fields == [] then None
    else if fields[|fields| - 1].id == id then Some(fields[|fields| - 1])
    else FieldById(fields[..|fields| - 1], id)
  }

  function ContentOf(env: Env, v: Value): Content {
    var def := FieldById(env.rules.fields, v.field);
    Content(v.field, if def.Some? then Some(def.value.name) else None, v.json, v.unit,
            if def.Some? then Some(def.value.tier) else None, v.status, v.source)
  }

  type Fact = (Content, set<Id>)

  /** What the merged values of fields `1..n` say, evidence as sets, in field order. */
  function LiveContent(env: Env, t: Table, h: Holder, n: nat): seq<Fact> {
    if n == 0 then []
    else
      var id := MergedId(t.values, h, n);
      LiveContent(env, t, h, n - 1) +
      if id.Some? then [(ContentOf(env, t.values[id.value]), EvidenceOf(t.links, id.value))] else []
  }

  /** The same as a document lists it, with each value's evidence in the order the database returned. */
  function DocValues(env: Env, values: Values, h: Holder, order: Id -> seq<Id>, n: nat): seq<DocValue> {
    if n == 0 then []
    else
      var id := MergedId(values, h, n);
      DocValues(env, values, h, order, n - 1) +
      if id.Some? then [DocValue(ContentOf(env, values[id.value]), order(id.value))] else []
  }

  function SetOf(ids: seq<Id>): set<Id> {
    set e | e in ids
  }

  function Plain(values: seq<DocValue>): seq<Fact> {
    seq(|values|, i requires 0 <= i < |values| => (values[i].content, SetOf(values[i].evidenceIds)))
  }

  ghost predicate ListsLinks(order: Id -> seq<Id>, links: set<Link>) {
    forall v: Id :: SetOf(order(v)) == EvidenceOf(links, v)
  }

  lemma {:induction false} DocumentIsLive(env: Env, t: Table, h: Holder, order: Id -> seq<Id>, n: nat)
    requires ListsLinks(order, t.links)
    ensures Plain(DocValues(env, t.values, h, order, n)) == LiveContent(env, t, h, n)
  {
    if n > 0 {
      DocumentIsLive(env, t, h, order, n - 1);
      var id := MergedId(t.values, h, n);
      var front := DocValues(env, t.values, h, order, n - 1);
      if id.Some? {
        var v := DocValue(ContentOf(env, t.values[id.value]), order(id.value));
        assert Plain(front + [v]) == Plain(front) + [(v.content, SetOf(v.evidenceIds))];
      } else {
        assert DocValues(env, t.values, h, order, n) == front;
      }
    }
  }

  /** The entry is its field's merged value: the content, and the evidence as listed. */
  predicate IsMerged(env: Env, values: Values, h: Holder, order: Id -> seq<Id>, v: DocValue) {
    var id := MergedId(values, h, v.content.field);
    id.Some? && v == DocValue(ContentOf(env, values[id.value]), order(id.value))
  }

  /**
   A document lists fields in ascending order, each once: the item's own current
   value where it has one, else the model's, and no field without either.
   */
  lemma {:induction false} DocumentListsFields(env: Env, values: Values, h: Holder, order: Id -> seq<Id>, n: nat)
    ensures var doc := DocValues(env, values, h, order, n);
            && (forall i, j :: 0 <= i < j < |doc| ==> doc[i].content.field < doc[j].content.field)
            && (forall v :: v in doc ==> 1 <= v.content.field <= n && IsMerged(env, values, h, order, v))
            && (forall f :: 1 <= f <= n && MergedId(values, h, f).Some? ==>
                exists v :: v in doc && v.content.field == f)
  {
    hide ContentOf, MergedId, FieldById;
    if n > 0 {
      DocumentListsFields(env, values, h, order, n - 1);
      var id, front := MergedId(values, h, n), DocValues(env, values, h, order, n - 1);
      if id.Some? {
        ContentField(env, values[id.value]);
        var v := DocValue(ContentOf(env, values[id.value]), order(id.value));
        assert DocValues(env, values, h, order, n) == front + [v];
        EntryAdded(front, v, n);
        assert IsMerged(env, values, h, order, v);
      } else {
        assert DocValues(env, values, h, order, n) == front;
      }
    }
  }

  lemma ContentField(env: Env, v: Value)
    ensures ContentOf(env, v).field == v.field
  {
  }

  /** An entry for a new, greater field keeps the order. */
  lemma EntryAdded(front: seq<DocValue>, v: DocValue, n: nat)
    requires forall i, j :: 0 <= i < j < |front| ==> front[i].content.field < front[j].content.field
    requires forall w :: w in front ==> w.content.field < n
    requires v.content.field == n
    ensures var doc := front + [v];
            && (forall i, j :: 0 <= i < j < |doc| ==> doc[i].content.field < doc[j].content.field)
            && (forall w :: w in doc <==> w in front || w == v)
  {
    forall i | 0 <= i < |front| ensures front[i].content.field < n {
      assert front[i] in front;
    }
  }

  /** Writes for other owners leave what an item shows unchanged. */
  lemma {:induction false} LiveContentStays(env: Env, t: Table, after: Table, owners: set<Owner>, h: Holder, n: nat)
    requires OneCurrent(t.values) && OneCurrent(after.values)
             && Touches(t.values, t.links, after.values, after.links, owners)
    requires OfItem(h.item) !in owners && OfModel(h.model) !in owners
    ensures LiveContent(env, after, h, n) == LiveContent(env, t, h, n)
  {
    if n > 0 {
      LiveContentStays(env, t, after, owners, h, n - 1);
      UntouchedStays(t.values, t.links, after.values, after.links, owners, OfItem(h.item), n);
      UntouchedStays(t.values, t.links, after.values, after.links, owners, OfModel(h.model), n);
    }
  }

  function UpiOf(env: Env, item: Item): string {
    if item.upi.Some? && item.upi.value != "" then item.upi.value else env.upiFor(item.publicId)
  }

  function LiveBattery(env: Env, id: Id, item: Item, model: Model): Battery {
    Battery(item.publicId, id, item.model, model.identifier, item.serial, item.batch, UpiOf(env, item),
            model.category, Some(item.lifecycle))
  }

  /** The document states the battery and the merged values as they are now. */
  predicate Agrees(env: Env, t: Table, id: Id, item: Item, model: Model, doc: Document) {
    doc.battery == LiveBattery(env, id, item, model)
        && Plain(doc.values) == LiveContent(env, t, Holder(id, item.model), FIELDS)
  }

  // ---- JSON ----

  function LifecycleText(l: Lifecycle): string {
    match l
    case Original => "original"
    case Repurposed => "repurposed"
    case Reused => "reused"
    case Remanufactured => "remanufactured"
    case Waste => "waste"
    case EndOfLife => "recycled"
  }

  function CategoryText(c: Category): string {
    match c
    case EV => "EV"
    case LMT => "LMT"
    case Industrial => "INDUSTRIAL_GT_2KWH"
  }

  function TierText(t: Tier): string {
    match t
    case PublicTier => "public"
    case LegitimateInterestModel => "legitimate_interest_model"
    case AuthorityOnly => "authority_only"
    case LegitimateInterestItem => "legitimate_interest_item"
  }

  function StatusText(s: Status): string {
    match s
    case Unvalidated => "unvalidated"
    case Submitted => "submitted"
    case Validated => "validated"
    case Rejected => "rejected"
    case Superseded => "superseded"
  }

  function SourceText(s: Source): string {
    match s
    case Operator => "operator"
    case Supplier => "supplier"
    case System => "system"
    case Integration => "integration"
  }

  function TextOrNull(s: Option<string>): Json {
    if s.Some? then Str(s.value) else Null
  }

  /** An undefined property does not appear in the text. */
  function Defined(key: string, s: Option<string>): seq<Member> {
    if s.Some? then [Member(key, Str(s.value))] else []
  }

  function BatteryJson(env: Env, b: Battery): Json {
    Obj([Member("publicId", Str(b.publicId)), Member("id", Str(env.idText(b.id))),
         Member("modelId", Str(env.idText(b.model))),
         Member("modelIdentifier", Str(b.identifier)), Member("serial", Str(b.serial)),
             Member("batch", TextOrNull(b.batch)),
         Member("upi", Str(b.upi)), Member("category", Str(CategoryText(b.category))),
         Member("lifecycleStatus", if b.lifecycle.Some? then Str(LifecycleText(b.lifecycle.value)) else Null)])
  }

  function IdsJson(env: Env, ids: seq<Id>): seq<Json> {
    seq(|ids|, i requires 0 <= i < |ids| => Str(env.idText(ids[i])))
  }

  function ValueJson(env: Env, v: DocValue): Json {
    var c := v.content;
    Obj(Defined("name", c.name) +
        Defined("accessTier", if c.tier.Some? then Some(TierText(c.tier.value)) else None) +
        [Member("fieldId", Num(env.rules.idText(c.field))), Member("value", c.json), Member("unit", TextOrNull(c.unit)),
         Member("validationStatus", Str(StatusText(c.status))), Member("sourceKind", Str(SourceText(c.source))),
         Member("evidenceIds", Arr(IdsJson(env, v.evidenceIds)))])
  }

  function ValuesJson(env: Env, values: seq<DocValue>): seq<Json> {
    seq(|values|, i requires 0 <= i < |values| => ValueJson(env, values[i]))
  }

  function DocumentJson(env: Env, doc: Document): Json {
    Obj([Member("schema", Str(doc.schema)), Member("ruleSetVersion", Str(doc.ruleSet)),
         Member("generatedAt", Str(doc.generatedAt)),
         Member("battery", BatteryJson(env, doc.battery)), Member("values", Arr(ValuesJson(env, doc.values)))])
  }

  // ---- readiness of an item ----

  predicate Usable(env: Env, e: Evidence, now: int) {
    && e.status == Verified
    && (env.scanRequired ==> e.scanned)
    && (e.expires.Some? ==> e.expires.value > now)
    && (e.issued.Some? ==> e.issued.value <= now)
  }

  function UsableEvidence(env: Env, links: set<Link>, evidence: map<Id, Evidence>, value: Id, now: int): set<Id> {
    set l | l in links && l.value == value && l.evidence in evidence
        && Usable(env, evidence[l.evidence], now) :: l.evidence
  }

  function InputOf(env: Env, db: Db, id: Id, now: int): Input
    requires id < |db.table.values|
  {
    var v := db.table.values[id];
    Input(v.field, v.json, v.status == Validated, |UsableEvidence(env, db.table.links, db.evidence, id, now)|)
  }

  function Inputs(env: Env, db: Db, h: Holder, now: int, n: nat): seq<Input> {
    if n == 0 then []
    else
      var id := MergedId(db.table.values, h, n);
      Inputs(env, db, h, now, n - 1) + if id.Some? then [InputOf(env, db, id.value, now)] else []
  }

  lemma {:induction false} InputsByField(env: Env, db: Db, h: Holder, now: int, n: nat, field: int)
    ensures ValueOf(Inputs(env, db, h, now, n), field) ==
            if 1 <= field <= n && MergedId(db.table.values, h, field).Some?
            then Some(InputOf(env, db, MergedId(db.table.values, h, field).value, now)) else None
  {
    if n > 0 {
      InputsByField(env, db, h, now, n - 1, field);
      var id := MergedId(db.table.values, h, n);
      if id.Some? {
        var front, last := Inputs(env, db, h, now, n - 1), InputOf(env, db, id.value, now);
        assert Inputs(env, db, h, now, n) == front + [last];
        assert (front + [last])[..|front|] == front;
      } else {
        assert Inputs(env, db, h, now, n) == Inputs(env, db, h, now, n - 1);
      }
    }
  }

  /** The stored ids of conditional fields that apply; anything but a list of integers requires none. */
  function ApplicableSet(context: Context): set<int> {
    if context.requiredIds.None? then {}
    else set e | e in context.requiredIds.value && e.IntegerId? :: e.id
  }

  predicate AtMost(a: Number, b: Number) {
    match (a, b)
    case (NaN, _) => false
    case (_, NaN) => false
    case (MinusInfinity, _) => true
    case (_, PlusInfinity) => true
    case (Finite(x), Finite(y)) => x <= y
    case _ => false
  }

  function NumberAt(env: Env, values: Values, h: Holder, field: int): Option<Number> {
    var id := MergedId(values, h, field);
    if id.None? then None else env.number(values[id.value].json)
  }

  /** The blocking cross-field rules: voltages in order, capacity and weight positive, not made in the future. */
  predicate CrossFieldsOk(env: Env, values: Values, h: Holder, manufactured: Option<int>, now: int) {
    var low, nominal, high := NumberAt(env, values, h, 26), NumberAt(env, values, h, 27), NumberAt(env, values, h, 28);
    var capacity, weight := NumberAt(env, values, h, 11), NumberAt(env, values, h, 10);
    && (low.Some? && nominal.Some? && high.Some? ==>
        AtMost(low.value, nominal.value) && AtMost(nominal.value, high.value))
    && (capacity.Some? ==> !AtMost(capacity.value, Finite(0.0)))
    && (weight.Some? ==> !AtMost(weight.value, Finite(0.0)))
    && (manufactured.Some? ==> manufactured.value <= now)
  }

  /** Field 67, if it has a value, names the item's lifecycle status. */
  predicate StatusFieldOk(values: Values, h: Holder, lifecycle: Lifecycle) {
    var id := MergedId(values, h, 67);
    id.Some? ==>
      var json := values[id.value].json;
      (if json == Str("re-used") then Str("reused") else json) == Str(LifecycleText(lifecycle))
  }

  predicate IsOpen(item: Item) {
    !SM.IsClosed(item.state) && item.lifecycle != EndOfLife
  }

  /** Every item belongs to a stored model. */
  predicate HasModel(db: Db, id: Id) {
    id in db.items && db.items[id].model in db.models
  }

  function HolderOf(db: Db, id: Id): Holder
    requires id in db.items
  {
    Holder(id, db.items[id].model)
  }

  function ModelOf(db: Db, id: Id): Model
    requires HasModel(db, id)
  {
    db.models[db.items[id].model]
  }

  /** `validateTx`: no blocker of any kind. */
  predicate Publishable(env: Env, db: Db, id: Id, now: int)
    requires HasModel(db, id)
  {
    var item, model, h := db.items[id], ModelOf(db, id), HolderOf(db, id);
    var inputs, applicable := Inputs(env, db, h, now, FIELDS), ApplicableSet(model.context);
    && Ids(env.rules.fields, Missing(model.category, inputs, applicable)) == []
    && Ids(env.rules.fields, Unproven(model.category, inputs, applicable)) == []
    && Complete(env.rules, model.category, model.context)
    && CrossFieldsOk(env, db.table.values, h, item.manufactured, now)
    && StatusFieldOk(db.table.values, h, item.lifecycle) && IsOpen(item)
  }

  /** What decides whether an item is publishable. */
  lemma SamePublishable(env: Env, db: Db, after: Db, id: Id, now: int)
    requires HasModel(db, id) && HasModel(after, id)
    requires after.models == db.models && after.table == db.table && after.evidence == db.evidence
    requires after.items[id].model == db.items[id].model && after.items[id].manufactured == db.items[id].manufactured
    requires after.items[id].lifecycle == db.items[id].lifecycle && IsOpen(after.items[id]) == IsOpen(db.items[id])
    ensures Publishable(env, after, id, now) == Publishable(env, db, id, now)
  {
    hide Complete, CrossFieldsOk, StatusFieldOk;
    SameInputs(env, db, after, HolderOf(db, id), now, FIELDS);
  }

  lemma {:induction false} SameInputs(env: Env, db: Db, after: Db, h: Holder, now: int, n: nat)
    requires after.table == db.table && after.evidence == db.evidence
    ensures Inputs(env, after, h, now, n) == Inputs(env, db, h, now, n)
  {
    if n > 0 {
      SameInputs(env, db, after, h, now, n - 1);
    }
  }

  /** The field is required of the item now: mandatory for its category, or decided applicable to its model. */
  predicate Required(env: Env, model: Model, f: Field) {
    f in env.rules.fields && RequiredNow(f, model.category, ApplicableSet(model.context))
  }

  /** The field's merged value is there, validated, and linked to usable evidence. */
  predicate Supported(env: Env, db: Db, h: Holder, field: int, now: int) {
    var id := MergedId(db.table.values, h, field);
    && id.Some? && 1 <= field <= FIELDS
    && db.table.values[id.value].json != Null && db.table.values[id.value].json != Str("")
    && db.table.values[id.value].status == Validated
    && exists e :: e in UsableEvidence(env, db.table.links, db.evidence, id.value, now)
  }

  /** A publishable item has support for every field required now. */
  lemma PublishableIsSupported(env: Env, db: Db, id: Id, now: int, f: Field)
    requires HasModel(db, id) && Publishable(env, db, id, now) && Required(env, ModelOf(db, id), f)
    ensures Supported(env, db, HolderOf(db, id), f.id, now)
  {
    var model, h := ModelOf(db, id), HolderOf(db, id);
    var inputs := Inputs(env, db, h, now, FIELDS);
    ReadyMeansProven(env.rules.fields, model.category, inputs, ApplicableSet(model.context));
    InputsByField(env, db, h, now, FIELDS, f.id);
    assert Proven(ValueOf(inputs, f.id));
    var usable := UsableEvidence(env, db.table.links, db.evidence, MergedId(db.table.values, h, f.id).value, now);
    assert usable != {};
    var e :| e in usable;
  }

  // ---- the public projection ----

  /** The catalogue shows the field to everyone, or to the tier that asks. */
  predicate Shown(fields: seq<Field>, tier: Option<Tier>, id: int) {
    exists f :: f in fields && f.id == id && (f.tier == PublicTier || tier == Some(f.tier))
  }

  /** A value without its tier, status, source and evidence: a constant stands for "not there". */
  function Bare(v: DocValue): DocValue {
    DocValue(v.content.(tier := None, status := Unvalidated, source := System), [])
  }

  function ShownValues(fields: seq<Field>, tier: Option<Tier>, values: seq<DocValue>): seq<DocValue> {
    if values == [] then []
    else
      var last := values[|values| - 1];
      ShownValues(fields, tier, values[..|values| - 1]) + if Shown(fields, tier, last.content.field)
          then [Bare(last)] else []
  }

  /** `projectPassport`; the battery's lifecycle status is field 67 by another name. */
  function ProjectFor(env: Env, doc: Document, tier: Option<Tier>): Document {
    var b := doc.battery;
    doc.(battery := b.(id := 0, model := 0, lifecycle := if Shown(env.rules.fields, tier, 67) then b.lifecycle
                       else None),
         values := ShownValues(env.rules.fields, tier, doc.values))
  }

  /** What everyone may see. */
  function Project(env: Env, doc: Document): Document {
    ProjectFor(env, doc, None)
  }

  function PublicBatteryMembers(b: Battery): seq<Member> {
    [Member("publicId", Str(b.publicId)), Member("modelIdentifier", Str(b.identifier)), Member("serial", Str(b.serial)),
     Member("batch", TextOrNull(b.batch)), Member("upi", Str(b.upi)),
         Member("category", Str(CategoryText(b.category)))] +
    if b.lifecycle.Some? then [Member("lifecycleStatus", Str(LifecycleText(b.lifecycle.value)))] else []
  }

  function PublicValueJson(env: Env, v: DocValue): Json {
    Obj(Defined("name", v.content.name) +
        [Member("fieldId", Num(env.rules.idText(v.content.field))), Member("value", v.content.json),
         Member("unit", TextOrNull(v.content.unit))])
  }

  function PublicValuesJson(env: Env, values: seq<DocValue>): seq<Json> {
    seq(|values|, i requires 0 <= i < |values| => PublicValueJson(env, values[i]))
  }

  function PublicJson(env: Env, doc: Document): Json {
    Obj([Member("schema", Str(doc.schema)), Member("ruleSetVersion", Str(doc.ruleSet)),
         Member("generatedAt", Str(doc.generatedAt)),
         Member("battery", Obj(PublicBatteryMembers(doc.battery))),
         Member("values", Arr(PublicValuesJson(env, doc.values)))])
  }
}
