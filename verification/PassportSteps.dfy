/**
 Every endpoint that writes a passport's rows, as one transaction: a function of
 the rows it locks. A refused transaction changes nothing.
 */
module PassportSteps {
  import opened Prelude
  import opened CanonicalJson
  import CO = CanonicalOrder
  import opened Catalogue
  import opened Applicability
  import opened PassportValues
  import opened PassportTables
  import SM = StateMachine

  datatype Code =
    | BadRequest | NotFound | LifecycleClosed
    | ValueNotCurrent | ProvenanceRequired | EvidenceNotReady | EvidenceChanged
    | PassportNotReady | PassportNotPublishable | PriorPassportRequired | PriorPassportInvalid | EventStatusMismatch
    | NoSubmissions | RequestClosed | TokenExpired | FieldNotRequested | ReviewIncomplete | IdentifierTaken

  datatype Outcome = Done(db: Db) | Refused(code: Code)

  // ---- passport-lock ----

  predicate Belongs(id: Id, item: Item, owners: set<Owner>) {
    OfItem(id) in owners || OfModel(item.model) in owners
  }

  function InvalidatedItem(item: Item): Item {
    item.(state := SM.Invalidated(item.state))
  }

  /** `invalidatePassports` for each of the owners. */
  function Invalidate(items: map<Id, Item>, owners: set<Owner>): map<Id, Item> {
    map id | id in items :: if Belongs(id, items[id], owners) then InvalidatedItem(items[id]) else items[id]
  }

  /** `lockValueOwner`: the reason the owner's values cannot be written. */
  function LockOwner(db: Db, owner: Owner): Option<Code> {
    match owner
    case OfModel(m) => if m in db.models then None else Some(NotFound)
    case OfItem(i) => LockItem(db, i)
  }

  function LockItem(db: Db, id: Id): Option<Code> {
    if !HasModel(db, id) then Some(NotFound)
    else if !IsOpen(db.items[id]) then Some(LifecycleClosed)
    else None
  }

  // ---- values ----

  function CreateValue(db: Db, owner: Owner, field: int, json: Json, unit: Option<string>, source: Source,
                       now: int): Outcome {
    if !(1 <= field <= FIELDS) then Refused(BadRequest)
    else if LockOwner(db, owner).Some? then Refused(LockOwner(db, owner).value)
    else
      var values := Put(db.table.values, owner, field, json, unit, source, Unvalidated, now);
      Done(db.(table := db.table.(values := values), items := Invalidate(db.items, {owner})))
  }

  function ValidateValue(env: Env, db: Db, id: Id, now: int): Outcome {
    if id >= |db.table.values| then Refused(NotFound)
    else
      var v := db.table.values[id];
      if LockOwner(db, v.owner).Some? then Refused(LockOwner(db, v.owner).value)
      else if v.until.Some? || v.status == Superseded || v.status == Rejected then Refused(ValueNotCurrent)
      else if UsableEvidence(env, db.table.links, db.evidence, id, now) == {} then Refused(ProvenanceRequired)
      else Done(db.(table := db.table.(values := Confirm(db.table.values, id)),
                    items := if v.status == Validated then db.items else Invalidate(db.items, {v.owner})))
  }

  function RejectValue(db: Db, id: Id, now: int): Outcome {
    if id >= |db.table.values| then Refused(NotFound)
    else
      var v := db.table.values[id];
      if LockOwner(db, v.owner).Some? then Refused(LockOwner(db, v.owner).value)
      else if v.until.Some? then Refused(ValueNotCurrent)
      else Done(db.(table := db.table.(values := Close(db.table.values, id, Rejected, now)),
                    items := Invalidate(db.items, {v.owner})))
  }

  // ---- evidence ----

  predicate Unusable(s: EvidenceStatus) { s == RejectedEvidence || s == SupersededEvidence }

  function LinkEvidence(db: Db, evidence: Id, id: Id): Outcome {
    if evidence !in db.evidence || id >= |db.table.values| then Refused(NotFound)
    else
      var owner := db.table.values[id].owner;
      if LockOwner(db, owner).Some? then Refused(LockOwner(db, owner).value)
      else if Unusable(db.evidence[evidence].status) then Refused(EvidenceNotReady)
      else Done(db.(table := db.table.(links := db.table.links + {Link(evidence, id)}),
                    items := Invalidate(db.items, {owner})))
  }

  /** The owners of the values an evidence object is linked to. */
  function LinkedOwners(t: Table, evidence: Id): set<Owner> {
    set l | l in t.links && l.evidence == evidence && l.value < |t.values| :: t.values[l.value].owner
  }

  /** The rejection transaction of `checkBytes` when nothing changed since the bytes were read. */
  function RejectEvidence(db: Db, evidence: Id): Outcome {
    if evidence !in db.evidence then Refused(NotFound)
    else if Unusable(db.evidence[evidence].status) then Refused(EvidenceChanged)
    else
      var rejected := db.evidence[evidence].(status := RejectedEvidence, scanned := false);
      Done(db.(evidence := db.evidence[evidence := rejected],
               items := Invalidate(db.items, LinkedOwners(db.table, evidence))))
  }

  /** What finalize and verify may do to a row (module EvidenceCas): a verified one stays so and keeps a clean scan. */
  predicate EvidenceMoves(a: Evidence, b: Evidence) {
    && !Unusable(a.status)
    && b.issued == a.issued && b.expires == a.expires
    && (b.status == Uploaded || b.status == Verified)
    && (a.status == Verified ==> b.status == Verified && b.scanned)
    && (a.status == PendingUpload ==> b.status == Uploaded)
  }

  function ChangeEvidence(db: Db, evidence: Id, after: Evidence): Outcome {
    if evidence !in db.evidence then Refused(NotFound)
    else if !EvidenceMoves(db.evidence[evidence], after) then Refused(EvidenceChanged)
    else Done(db.(evidence := db.evidence[evidence := after]))
  }

  // ---- suppliers ----

  /** `assertOpen` */
  function OpenRequest(r: SupplierRequest, now: int): Option<Code> {
    if r.expires <= now then Some(TokenExpired)
    else if r.status == AcceptedRequest || r.status == Cancelled || r.status == Expired then Some(RequestClosed)
    else None
  }

  /** One submission of a body, under the id it will get. */
  datatype Posted = Posted(id: Id, s: Submission)

  /** The first reason against a body, in the order in which its submissions are stored. */
  function FirstProblem(body: seq<Posted>, fields: set<int>, known: set<Id>): Option<Code> {
    if body == [] then None
    else if body[0].s.field !in fields then Some(FieldNotRequested)
    else if !(body[0].s.evidence <= known) then Some(NotFound)
    else FirstProblem(body[1..], fields, known)
  }

  /** One row for each submission of the body, under the id it was given. */
  function WithPosted(submissions: map<Id, Submission>, body: seq<Posted>): map<Id, Submission> {
    if body == [] then submissions
    else WithPosted(submissions, body[..|body| - 1])[body[|body| - 1].id := body[|body| - 1].s]
  }

  function Submit(db: Db, request: Id, body: seq<Posted>, now: int): Outcome {
    if !(1 <= |body| <= FIELDS) then Refused(BadRequest)
    else if request !in db.requests then Refused(NotFound)
    else
      var r := db.requests[request];
      if OpenRequest(r, now).Some? then Refused(OpenRequest(r, now).value)
      else if FirstProblem(body, r.fields, db.evidence.Keys).Some?
          then Refused(FirstProblem(body, r.fields, db.evidence.Keys).value)
      else Done(db.(requests := db.requests[request := r.(submissions := WithPosted(r.submissions, body),
                                                          status := SubmittedRequest)]))
  }

  /** Reading the portal session marks the request as opened. */
  function OpenPortal(db: Db, request: Id, now: int): Outcome {
    if request !in db.requests then Refused(NotFound)
    else
      var r := db.requests[request];
      if OpenRequest(r, now).Some? then Refused(OpenRequest(r, now).value)
      else Done(db.(requests := db.requests[request :=
        if r.status == DraftRequest || r.status == Sent then r.(status := OpenedRequest) else r]))
  }

  /** `ORDER BY submittedAt, id` */
  predicate Earlier(submissions: map<Id, Submission>, a: Id, b: Id)
    requires a in submissions && b in submissions
  {
    submissions[a].at < submissions[b].at || (submissions[a].at == submissions[b].at && a < b)
  }

  ghost predicate Ordered(submissions: map<Id, Submission>, order: seq<Id>) {
    && (forall id :: id in order <==> id in submissions)
    && (forall i, j :: 0 <= i < j < |order| ==> Earlier(submissions, order[i], order[j]))
  }

  function Listed(submissions: map<Id, Submission>, order: seq<Id>): seq<Submission>
    requires forall id :: id in order ==> id in submissions
  {
    seq(|order|, i requires 0 <= i < |order| => submissions[order[i]])
  }

  function EvidenceIn(submissions: map<Id, Submission>): set<Id> {
    set id, e | id in submissions && e in submissions[id].evidence :: e
  }

  function Accept(db: Db, request: Id, order: seq<Id>, now: int): Outcome
    requires request in db.requests ==> Ordered(db.requests[request].submissions, order)
  {
    if request !in db.requests || db.requests[request].model !in db.models then Refused(NotFound)
    else
      var r := db.requests[request];
      if OpenRequest(r, now).Some? then Refused(OpenRequest(r, now).value)
      else if r.submissions == map[] then Refused(NoSubmissions)
      else if exists e :: e in EvidenceIn(r.submissions) && (e !in db.evidence || Unusable(db.evidence[e].status))
      then Refused(EvidenceNotReady)
      else Done(db.(table := AcceptAll(db.table, r.model, Listed(r.submissions, order), now),
                    requests := db.requests[request := r.(status := AcceptedRequest)],
                    items := Invalidate(db.items, {OfModel(r.model)})))
  }

  // ---- lifecycle ----

  /** The lifecycle status an event leads to; repairs and accidents leave it alone. */
  function StatusFor(kind: EventKind): Option<Lifecycle> {
    match kind
    case Repurpose => Some(Repurposed)
    case Reuse => Some(Reused)
    case Remanufacture => Some(Remanufactured)
    case Recycle => Some(EndOfLife)
    case StatusChange => Some(Waste)
    case _ => None
  }

  function LatestNo(item: Item): Option<nat> {
    if item.versions == [] then None else Some(item.versions[|item.versions| - 1].versionNo)
  }

  /**
   The item after an event: recorded with its lifecycle transition; recycling closes it, anything
   else invalidates it.
   */
  function Noted(item: Item, kind: EventKind): Item {
    var to := if StatusFor(kind).Some? then StatusFor(kind).value else item.lifecycle;
    var noted := item.(events := item.events + [Event(kind, item.lifecycle, to)], lifecycle := to);
    if kind == Recycle then noted.(state := SM.Recycled) else InvalidatedItem(noted)
  }

  function RecordEvent(db: Db, id: Id, kind: EventKind, newStatus: Option<Lifecycle>, previous: Option<nat>): Outcome {
    if (kind == Repurpose || kind == Reuse || kind == Remanufacture) && previous.None?
        then Refused(PriorPassportRequired)
    else if (kind == StatusChange && newStatus != Some(Waste)) || (newStatus.Some? && newStatus != StatusFor(kind))
    then Refused(EventStatusMismatch)
    else if LockItem(db, id).Some? then Refused(LockItem(db, id).value)
    else if previous.Some? && LatestNo(db.items[id]) != previous then Refused(PriorPassportInvalid)
    else Done(db.(items := db.items[id := Noted(db.items[id], kind)]))
  }

  function Ingest(db: Db, id: Id, readings: seq<Json>): Outcome {
    if !(1 <= |readings| <= 1000) then Refused(BadRequest)
    else if LockItem(db, id).Some? then Refused(LockItem(db, id).value)
    else
      var item := db.items[id];
      Done(db.(items := db.items[id := InvalidatedItem(item.(readings := item.readings + readings))]))
  }

  // ---- applicability ----

  function ReviewApplicability(env: Env, db: Db, model: Id, decisions: seq<Decision>, actor: string,
                               at: string): Outcome {
    if model !in db.models then Refused(NotFound)
    else
      var m := db.models[model];
      var context := Reviewed(env.rules, m.category, m.context, decisions, actor, at);
      if !Complete(env.rules, m.category, context) then Refused(ReviewIncomplete)
      else Done(db.(models := db.models[model := m.(context := context)],
                    items := Invalidate(db.items, {OfModel(model)})))
  }

  // ---- passports ----

  function Validate(env: Env, db: Db, id: Id, now: int): Outcome
  {
    if LockItem(db, id).Some? then Refused(LockItem(db, id).value)
    else
      var item := db.items[id];
      Done(db.(items := db.items[id := item.(state := SM.Validated(item.state, Publishable(env, db, id, now)))]))
  }

  function Deactivated(snapshots: seq<Snapshot>): seq<Snapshot> {
    seq(|snapshots|, i requires 0 <= i < |snapshots| => snapshots[i].(active := false))
  }

  /** The canonical document of the locked rows. */
  function NextDocument(env: Env, db: Db, id: Id, generatedAt: string, ruleSet: string, order: Id -> seq<Id>): Document
    requires HasModel(db, id)
  {
    Document(SCHEMA, ruleSet, generatedAt, LiveBattery(env, id, db.items[id], ModelOf(db, id)),
             DocValues(env, db.table.values, HolderOf(db, id), order, FIELDS))
  }

  function NextVersion(env: Env, item: Item, doc: Document, now: int): Version {
    var n := |item.versions|;
    Version(if n == 0 then 1 else item.versions[n - 1].versionNo + 1, SCHEMA, doc.ruleSet, doc,
            CO.HashJson(DocumentJson(env, doc)),
            if n == 0 then None else Some(item.versions[n - 1].sha256), true, Some(now))
  }

  /**
   The version is appended, its projection becomes the one active snapshot, and the item keeps the
   UPI it published.
   */
  function WithVersion(env: Env, item: Item, doc: Document, now: int): Item {
    var version, shown := NextVersion(env, item, doc, now), Project(env, doc);
    item.(state := SM.Published, upi := Some(UpiOf(env, item)), versions := item.versions + [version],
          snapshots := Deactivated(item.snapshots) +
                       [Snapshot(version.versionNo, shown, CO.HashJson(PublicJson(env, shown)), true)])
  }

  /** UPIs are unique over all items. */
  predicate UpiTaken(db: Db, id: Id, upi: string) {
    exists other :: other in db.items && other != id && db.items[other].upi == Some(upi)
  }

  function Publish(env: Env, db: Db, id: Id, now: int, generatedAt: string, ruleSet: string,
                   order: Id -> seq<Id>): Outcome
  {
    if LockItem(db, id).Some? then Refused(LockItem(db, id).value)
    else if db.items[id].state != SM.Ready && db.items[id].state != SM.Updated then Refused(PassportNotReady)
    else if !Publishable(env, db, id, now) then Refused(PassportNotPublishable)
    else if UpiTaken(db, id, UpiOf(env, db.items[id])) then Refused(IdentifierTaken)
    else
      var doc := NextDocument(env, db, id, generatedAt, ruleSet, order);
      Done(db.(items := db.items[id := WithVersion(env, db.items[id], doc, now)]))
  }

  // ---- creating rows ----

  function AddModel(db: Db, id: Id, identifier: string, category: Category, context: Context): Outcome {
    if id in db.models then Refused(BadRequest)
    else Done(db.(models := db.models[id := Model(identifier, category, context)]))
  }

  function AddItem(db: Db, id: Id, model: Id, publicId: string, serial: string, batch: Option<string>,
                   upi: Option<string>, manufactured: Option<int>): Outcome
  {
    if model !in db.models then Refused(NotFound)
    else if id in db.items || (upi.Some? && UpiTaken(db, id, upi.value)) then Refused(IdentifierTaken)
    else Done(db.(items := db.items[id :=
      Item(model, publicId, serial, batch, upi, manufactured, Original, SM.Draft, [], [], [], [])]))
  }

  function AddEvidence(db: Db, id: Id): Outcome {
    if id in db.evidence then Refused(BadRequest)
    else Done(db.(evidence := db.evidence[id := Evidence(PendingUpload, None, None, false)]))
  }

  function AddRequest(db: Db, id: Id, model: Id, fields: set<int>, expires: int): Outcome {
    if model !in db.models then Refused(NotFound)
    else if id in db.requests || exists f :: f in fields && !(1 <= f <= FIELDS) then Refused(BadRequest)
    else Done(db.(requests := db.requests[id := SupplierRequest(model, fields, DraftRequest, expires, map[])]))
  }
}
