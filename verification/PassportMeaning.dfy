/**
 What each endpoint promises its caller, said of the rows before and after: when it is
 refused, what it changes, and what it leaves.
 */
module PassportMeaning {
  import opened Prelude
  import opened Text
  import opened CanonicalJson
  import CO = CanonicalOrder
  import opened Catalogue
  import opened Readiness
  import opened Applicability
  import AM = ApplicabilityMeaning
  import opened PassportValues
  import opened PassportTables
  import opened PassportSteps
  import SM = StateMachine

  // ---- who may be written, and what becomes of published passports ----

  /** An item in a stored model whose life is not over, or a stored model. */
  ghost predicate Alive(db: Db, owner: Owner) {
    match owner
    case OfModel(m) => m in db.models
    case OfItem(i) =>
      && i in db.items && db.items[i].model in db.models
      && db.items[i].state != SM.Recycled && db.items[i].state != SM.Superseded && db.items[i].lifecycle != EndOfLife
  }

  /** A closed item is refused as such; an unknown one, or one of an unknown model, is not found. */
  lemma LockedMeansAlive(db: Db, owner: Owner)
    ensures LockOwner(db, owner) == None <==> Alive(db, owner)
    ensures LockOwner(db, owner) == Some(LifecycleClosed) <==>
              owner.OfItem? && owner.id in db.items && db.items[owner.id].model in db.models && !Alive(db, owner)
    ensures LockOwner(db, owner) in {None, Some(NotFound), Some(LifecycleClosed)}
  {
  }

  /** An item after a write for it or its model: no longer published or ready, otherwise as it was. */
  ghost predicate Withdrawn(before: Item, after: Item) {
    && after == before.(state := after.state)
    && match before.state
       case Published => after.state == SM.Updated
       case Registered => after.state == SM.Updated
       case RegistryPending => after.state == SM.Updated
       case Ready => after.state == SM.DataCollection
       case _ => after.state == before.state
  }

  /** The owner's items are withdrawn and the others left alone. */
  ghost predicate OwnerWithdrawn(before: map<Id, Item>, after: map<Id, Item>, owner: Owner) {
    && after.Keys == before.Keys
    && forall id :: id in before ==>
         if owner == OfItem(id) || owner == OfModel(before[id].model) then Withdrawn(before[id], after[id])
         else after[id] == before[id]
  }

  lemma InvalidateMeans(items: map<Id, Item>, owner: Owner)
    ensures OwnerWithdrawn(items, Invalidate(items, {owner}), owner)
  {
  }

  // ---- values ----

  /** The row that counts for an owner's field. */
  ghost predicate CurrentRow(values: Values, id: Id, owner: Owner, field: int) {
    id < |values| && values[id].owner == owner && values[id].field == field && values[id].until == None
  }

  /** Another row ends the current one, which it names. */
  lemma CreateMeans(db: Db, owner: Owner, field: int, json: Json, unit: Option<string>, source: Source, now: int)
    ensures var r := CreateValue(db, owner, field, json, unit, source, now);
            && (r.Done? <==> 1 <= field <= 71 && Alive(db, owner))
            && (r == Refused(BadRequest) <==> !(1 <= field <= 71))
            && (r.Done? ==>
                  var was, next, n := db.table.values, r.db.table.values, |db.table.values|;
                  && |next| == n + 1
                  && next[n] == Value(owner, field, json, unit, source, Unvalidated, None, next[n].supersedes)
                  && (next[n].supersedes == None ==> forall k :: !CurrentRow(was, k, owner, field))
                  && (forall p :: next[n].supersedes == Some(p) ==>
                        CurrentRow(was, p, owner, field)
                        && next[p] == was[p].(status := PassportValues.Superseded, until := Some(now)))
                  && (forall k :: 0 <= k < n && next[n].supersedes != Some(k) ==> next[k] == was[k])
                  && r.db == db.(table := db.table.(values := next), items := r.db.items)
                  && OwnerWithdrawn(db.items, r.db.items, owner))
  {
    hide LockOwner, Alive, Invalidate, OwnerWithdrawn;
    LockedMeansAlive(db, owner);
    InvalidateMeans(db.items, owner);
  }

  /** Verified, with its scan where scans are required, begun and not over. */
  ghost predicate GoodAt(env: Env, e: Evidence, now: int) {
    && e.status == Verified && (env.scanRequired ==> e.scanned)
    && (forall start :: e.issued == Some(start) ==> start <= now)
       && (forall end :: e.expires == Some(end) ==> now < end)
  }

  ghost predicate RestsOnGoodEvidence(env: Env, db: Db, id: Id, now: int) {
    exists e :: e in db.evidence && Link(e, id) in db.table.links && GoodAt(env, db.evidence[e], now)
  }

  lemma UsableMeansGood(env: Env, db: Db, id: Id, now: int)
    ensures UsableEvidence(env, db.table.links, db.evidence, id, now) != {} <==> RestsOnGoodEvidence(env, db, id, now)
  {
    var usable := UsableEvidence(env, db.table.links, db.evidence, id, now);
    if usable != {} {
      var e :| e in usable;
      assert Link(e, id) in db.table.links && GoodAt(env, db.evidence[e], now);
    }
    if RestsOnGoodEvidence(env, db, id, now) {
      var e :| e in db.evidence && Link(e, id) in db.table.links && GoodAt(env, db.evidence[e], now);
      assert e in usable;
    }
  }

  /** A current value is validated only if it rests on good evidence; validating it again withdraws nothing. */
  lemma ConfirmMeans(env: Env, db: Db, id: Id, now: int)
    ensures var r := ValidateValue(env, db, id, now);
            && (r.Done? <==>
                  && id < |db.table.values|
                  && var v := db.table.values[id];
                  && Alive(db, v.owner) && v.until == None
                  && v.status != PassportValues.Superseded && v.status != PassportValues.Rejected
                  && RestsOnGoodEvidence(env, db, id, now))
            && (r.Done? ==>
                  var v := db.table.values[id];
                  && r.db.table == db.table.(values := db.table.values[id := v.(status := Validated)])
                  && r.db == db.(table := r.db.table, items := r.db.items)
                  && if v.status == Validated then r.db.items == db.items
                     else OwnerWithdrawn(db.items, r.db.items, v.owner))
  {
    hide LockOwner, Alive, Invalidate, OwnerWithdrawn, UsableEvidence, RestsOnGoodEvidence;
    UsableMeansGood(env, db, id, now);
    if id < |db.table.values| {
      LockedMeansAlive(db, db.table.values[id].owner);
      InvalidateMeans(db.items, db.table.values[id].owner);
    }
  }

  lemma RejectMeans(db: Db, id: Id, now: int)
    ensures var r := RejectValue(db, id, now);
            && (r.Done? <==> id < |db.table.values| && Alive(db, db.table.values[id].owner)
                             && db.table.values[id].until == None)
            && (r.Done? ==>
                  var v := db.table.values[id];
                  && r.db.table.values == db.table.values[id := v.(status := PassportValues.Rejected,
                                                                   until := Some(now))]
                  && r.db == db.(table := db.table.(values := r.db.table.values), items := r.db.items)
                  && OwnerWithdrawn(db.items, r.db.items, v.owner))
  {
    hide LockOwner, Alive, Invalidate, OwnerWithdrawn;
    if id < |db.table.values| {
      LockedMeansAlive(db, db.table.values[id].owner);
      InvalidateMeans(db.items, db.table.values[id].owner);
    }
  }

  // ---- evidence ----

  lemma LinkMeans(db: Db, evidence: Id, id: Id)
    ensures var r := LinkEvidence(db, evidence, id);
            && (r.Done? <==> evidence in db.evidence && id < |db.table.values| && Alive(db, db.table.values[id].owner)
                             && db.evidence[evidence].status != RejectedEvidence
                             && db.evidence[evidence].status != SupersededEvidence)
            && (r.Done? ==>
                  && r.db.table == db.table.(links := db.table.links + {Link(evidence, id)})
                  && r.db == db.(table := r.db.table, items := r.db.items)
                  && OwnerWithdrawn(db.items, r.db.items, db.table.values[id].owner))
  {
    hide LockOwner, Alive, Invalidate, OwnerWithdrawn;
    if id < |db.table.values| {
      LockedMeansAlive(db, db.table.values[id].owner);
      InvalidateMeans(db.items, db.table.values[id].owner);
    }
  }

  /** The item, or its model, has a value the evidence is linked to. */
  ghost predicate RestsOn(db: Db, id: Id, evidence: Id)
    requires id in db.items
  {
    exists v :: 0 <= v < |db.table.values| && Link(evidence, v) in db.table.links
                && (db.table.values[v].owner == OfItem(id) || db.table.values[v].owner == OfModel(db.items[id].model))
  }

  /** Rejected evidence is no longer trusted, and every passport with a value it is linked to is withdrawn. */
  lemma RejectEvidenceMeans(db: Db, evidence: Id)
    ensures var r := RejectEvidence(db, evidence);
            && (r.Done? <==> evidence in db.evidence && db.evidence[evidence].status != RejectedEvidence
                             && db.evidence[evidence].status != SupersededEvidence)
            && (r.Done? ==>
                  && r.db.evidence == db.evidence[evidence := r.db.evidence[evidence]]
                  && r.db.evidence[evidence] ==
                     db.evidence[evidence].(status := RejectedEvidence, scanned := r.db.evidence[evidence].scanned)
                  && r.db == db.(evidence := r.db.evidence, items := r.db.items) && r.db.items.Keys == db.items.Keys
                  && forall id :: id in db.items ==>
                       if RestsOn(db, id, evidence) then Withdrawn(db.items[id], r.db.items[id])
                       else r.db.items[id] == db.items[id])
  {
    hide LinkedOwners, RestsOn, Belongs;
    forall id | id in db.items
      ensures Belongs(id, db.items[id], LinkedOwners(db.table, evidence)) <==> RestsOn(db, id, evidence)
    {
      BelongsMeans(db, id, evidence);
    }
  }

  lemma BelongsMeans(db: Db, id: Id, evidence: Id)
    requires id in db.items
    ensures Belongs(id, db.items[id], LinkedOwners(db.table, evidence)) <==> RestsOn(db, id, evidence)
  {
    var owners := LinkedOwners(db.table, evidence);
    if RestsOn(db, id, evidence) {
      var v :| 0 <= v < |db.table.values| && Link(evidence, v) in db.table.links
               && (db.table.values[v].owner == OfItem(id) || db.table.values[v].owner == OfModel(db.items[id].model));
      assert Link(evidence, v).evidence == evidence && db.table.values[v].owner in owners;
    }
    forall o | o in owners ensures exists v :: 0 <= v < |db.table.values| && Link(evidence, v) in db.table.links
                                               && db.table.values[v].owner == o
    {
      var l :| l in db.table.links && l.evidence == evidence && l.value < |db.table.values|
               && db.table.values[l.value].owner == o;
      assert l == Link(evidence, l.value);
    }
  }

  // ---- suppliers ----

  /** The portal and the acceptance take a request until it expires or is accepted, cancelled or marked expired. */
  ghost predicate TakesSubmissions(r: SupplierRequest, now: int) {
    now < r.expires && r.status != AcceptedRequest && r.status != Cancelled && r.status != Expired
  }

  lemma OpenPortalMeans(db: Db, request: Id, now: int)
    ensures var r := OpenPortal(db, request, now);
            && (r.Done? <==> request in db.requests && TakesSubmissions(db.requests[request], now))
            && (r == Refused(TokenExpired) <==> request in db.requests && db.requests[request].expires <= now)
            && (r.Done? ==>
                  var was, next := db.requests[request], r.db.requests[request];
                  && next == was.(status := next.status)
                  && next.status == (if was.status == DraftRequest || was.status == Sent then OpenedRequest
                                     else was.status)
                  && r.db == db.(requests := db.requests[request := next]))
  {
  }

  /** Every submission is for a field that was asked for and names stored evidence. */
  ghost predicate Answers(body: seq<Posted>, fields: set<int>, known: set<Id>) {
    forall i :: 0 <= i < |body| ==> body[i].s.field in fields && body[i].s.evidence <= known
  }

  lemma {:induction false} NoProblemMeansAnswers(body: seq<Posted>, fields: set<int>, known: set<Id>)
    ensures FirstProblem(body, fields, known) == None <==> Answers(body, fields, known)
  {
    if body != [] {
      NoProblemMeansAnswers(body[1..], fields, known);
      assert body == [body[0]] + body[1..];
    }
  }

  ghost predicate Brings(body: seq<Posted>, id: Id) {
    exists i :: 0 <= i < |body| && body[i].id == id
  }

  lemma {:induction false} PostedAreStored(submissions: map<Id, Submission>, body: seq<Posted>)
    requires forall i, j :: 0 <= i < j < |body| ==> body[i].id != body[j].id
    ensures var after := WithPosted(submissions, body);
            && (forall i :: 0 <= i < |body| ==> body[i].id in after && after[body[i].id] == body[i].s)
            && (forall id :: !Brings(body, id) ==>
                  (id in after <==> id in submissions) && (id in after ==> after[id] == submissions[id]))
    decreases |body|
  {
    if body != [] {
      var front, last := body[..|body| - 1], body[|body| - 1];
      PostedAreStored(submissions, front);
      forall id | Brings(front, id) ensures Brings(body, id) {
        var i :| 0 <= i < |front| && front[i].id == id;
        assert body[i].id == id;
      }
      assert body[|front|].id == last.id;
    }
  }

  /** All submissions of a body are stored under their ids, or nothing is. */
  lemma SubmitMeans(db: Db, request: Id, body: seq<Posted>, now: int)
    requires forall i, j :: 0 <= i < j < |body| ==> body[i].id != body[j].id
    ensures var r := Submit(db, request, body, now);
            && (r.Done? <==> 1 <= |body| <= 71 && request in db.requests && TakesSubmissions(db.requests[request], now)
                             && Answers(body, db.requests[request].fields, db.evidence.Keys))
            && (r.Done? ==>
                  var was, next := db.requests[request], r.db.requests[request];
                  && next == was.(status := SubmittedRequest, submissions := next.submissions)
                  && (forall i :: 0 <= i < |body| ==>
                        body[i].id in next.submissions && next.submissions[body[i].id] == body[i].s)
                  && (forall id :: !Brings(body, id) ==>
                        (id in next.submissions <==> id in was.submissions)
                        && (id in next.submissions ==> next.submissions[id] == was.submissions[id]))
                  && r.db == db.(requests := db.requests[request := next]))
  {
    hide FirstProblem, Answers, WithPosted;
    if request in db.requests {
      NoProblemMeansAnswers(body, db.requests[request].fields, db.evidence.Keys);
      PostedAreStored(db.requests[request].submissions, body);
    }
  }

  /** The table after an acceptance: a row of the model for each submission, with its evidence. */
  ghost predicate HoldsAccepted(t: Table, after: Table, model: Id, list: seq<Submission>, now: int) {
    var n := |t.values|;
    && |after.values| == n + |list|
    && (forall i :: 0 <= i < |list| ==>
          var row := after.values[n + i];
          && row == Value(OfModel(model), list[i].field, list[i].json, list[i].unit, Supplier, row.status, row.until,
                          row.supersedes)
          && ((row.status == Submitted && row.until == None)
              || (row.status == PassportValues.Superseded && row.until == Some(now))))
    && (forall k :: 0 <= k < n ==>
          after.values[k] == t.values[k]
          || (&& t.values[k].owner == OfModel(model) && t.values[k].until == None
              && after.values[k] == t.values[k].(status := PassportValues.Superseded, until := Some(now))
              && exists i :: 0 <= i < |list| && list[i].field == t.values[k].field))
    && (forall l :: l in after.links <==>
          l in t.links || (n <= l.value < n + |list| && l.evidence in list[l.value - n].evidence))
  }

  lemma {:induction false} AcceptedAreHeld(t: Table, model: Id, list: seq<Submission>, now: int)
    ensures HoldsAccepted(t, AcceptAll(t, model, list, now), model, list, now)
    decreases |list|
  {
    if list != [] {
      var front, last := list[..|list| - 1], list[|list| - 1];
      AcceptedAreHeld(t, model, front, now);
      OneMoreIsHeld(t, AcceptAll(t, model, front, now), model, front, last, now);
      assert list == front + [last];
    }
  }

  lemma OneMoreIsHeld(t: Table, mid: Table, model: Id, front: seq<Submission>, last: Submission, now: int)
    requires HoldsAccepted(t, mid, model, front, now)
    ensures HoldsAccepted(t, AcceptOne(mid, model, last, now), model, front + [last], now)
  {
    var after, list := AcceptOne(mid, model, last, now), front + [last];
    forall k | 0 <= k < |t.values|
      ensures after.values[k] == t.values[k]
              || (&& t.values[k].owner == OfModel(model) && t.values[k].until == None
                  && after.values[k] == t.values[k].(status := PassportValues.Superseded, until := Some(now))
                  && exists i :: 0 <= i < |list| && list[i].field == t.values[k].field)
    {
      if mid.values[k] != t.values[k] {
        var i :| 0 <= i < |front| && front[i].field == t.values[k].field;
        assert list[i] == front[i];
      } else if after.values[k] != t.values[k] {
        assert list[|front|].field == t.values[k].field;
      }
    }
  }

  /** Accepting turns the submissions, in the order given, into the model's values and closes the request. */
  lemma AcceptMeans(db: Db, request: Id, order: seq<Id>, now: int)
    requires request in db.requests ==> Ordered(db.requests[request].submissions, order)
    ensures var r := Accept(db, request, order, now);
            && (r.Done? <==>
                  && request in db.requests && TakesSubmissions(db.requests[request], now)
                  && var q := db.requests[request];
                  && q.model in db.models && q.submissions != map[]
                  && forall id, e :: id in q.submissions && e in q.submissions[id].evidence ==>
                       && e in db.evidence && db.evidence[e].status != RejectedEvidence
                       && db.evidence[e].status != SupersededEvidence)
            && (r.Done? ==>
                  var q := db.requests[request];
                  && HoldsAccepted(db.table, r.db.table, q.model, Listed(q.submissions, order), now)
                  && OwnerWithdrawn(db.items, r.db.items, OfModel(q.model))
                  && r.db == db.(table := r.db.table, items := r.db.items,
                                 requests := db.requests[request := q.(status := AcceptedRequest)]))
  {
    hide HoldsAccepted, Invalidate, OwnerWithdrawn, AcceptAll;
    if request in db.requests {
      var q := db.requests[request];
      AcceptedAreHeld(db.table, q.model, Listed(q.submissions, order), now);
      InvalidateMeans(db.items, OfModel(q.model));
      forall id, e | id in q.submissions && e in q.submissions[id].evidence ensures e in EvidenceIn(q.submissions) {
      }
    }
  }

  // ---- lifecycle ----

  lemma IngestMeans(db: Db, id: Id, readings: seq<Json>)
    ensures var r := Ingest(db, id, readings);
            && (r.Done? <==> 1 <= |readings| <= 1000 && Alive(db, OfItem(id)))
            && (r.Done? ==>
                  && r.db == db.(items := db.items[id := r.db.items[id]])
                  && Withdrawn(db.items[id].(readings := db.items[id].readings + readings), r.db.items[id]))
  {
    LockedMeansAlive(db, OfItem(id));
  }

  /** What becomes of the lifecycle status. */
  ghost predicate LeadsTo(kind: EventKind, start: Lifecycle, end: Lifecycle) {
    && (kind == Repurpose ==> end == Repurposed)
    && (kind == Reuse ==> end == Reused)
    && (kind == Remanufacture ==> end == Remanufactured)
    && (kind == Recycle ==> end == EndOfLife)
    && (kind == StatusChange ==> end == Waste)
    && (kind == Repair || kind == Accident ==> end == start)
  }

  /** The status a caller may name with an event: the one it leads to, and a change of status must name it. */
  ghost predicate MayName(kind: EventKind, status: Option<Lifecycle>) {
    match kind
    case Repurpose => status == None || status == Some(Repurposed)
    case Reuse => status == None || status == Some(Reused)
    case Remanufacture => status == None || status == Some(Remanufactured)
    case Recycle => status == None || status == Some(EndOfLife)
    case StatusChange => status == Some(Waste)
    case Repair => status == None
    case Accident => status == None
  }

  /** The prior passport an event names is the item's last version; a second life must name one. */
  ghost predicate NamesPrior(kind: EventKind, item: Item, previous: Option<nat>) {
    && (kind == Repurpose || kind == Reuse || kind == Remanufacture ==> previous != None)
    && (previous != None ==>
        item.versions != [] && previous == Some(item.versions[|item.versions| - 1].versionNo))
  }

  /** An item after an event: the transition recorded; closed by recycling, withdrawn by any other. */
  ghost predicate Recorded(was: Item, kind: EventKind, next: Item) {
    && LeadsTo(kind, was.lifecycle, next.lifecycle)
    && next.events == was.events + [Event(kind, was.lifecycle, next.lifecycle)]
    && var noted := was.(lifecycle := next.lifecycle, events := next.events);
       if kind == Recycle then next == noted.(state := SM.Recycled) else Withdrawn(noted, next)
  }

  lemma NotedIsRecorded(item: Item, kind: EventKind)
    ensures Recorded(item, kind, Noted(item, kind))
  {
  }

  /** An event is recorded, or refused for the status or the prior passport it names or the item it is for. */
  lemma EventMeans(db: Db, id: Id, kind: EventKind, newStatus: Option<Lifecycle>, previous: Option<nat>)
    ensures var r := RecordEvent(db, id, kind, newStatus, previous);
            && (r.Done? <==> Alive(db, OfItem(id)) && MayName(kind, newStatus)
                             && NamesPrior(kind, db.items[id], previous))
            && (r == Refused(EventStatusMismatch) ==> !MayName(kind, newStatus))
            && (r.Done? ==>
                  && r.db == db.(items := db.items[id := r.db.items[id]])
                  && Recorded(db.items[id], kind, r.db.items[id]))
  {
    hide Noted, Recorded;
    LockedMeansAlive(db, OfItem(id));
    if id in db.items {
      NotedIsRecorded(db.items[id], kind);
    }
  }

  // ---- creating rows ----

  /** A new item is a draft in its first life, of a stored model, under an identifier no other item has. */
  lemma AddItemMeans(db: Db, id: Id, model: Id, publicId: string, serial: string, batch: Option<string>,
                     upi: Option<string>, manufactured: Option<int>)
    ensures var r := AddItem(db, id, model, publicId, serial, batch, upi, manufactured);
            && (r.Done? <==>
                  model in db.models && id !in db.items
                  && (upi != None ==> forall other :: other in db.items ==> db.items[other].upi != upi))
            && (r.Done? ==>
                  && r.db == db.(items := db.items[id := r.db.items[id]])
                  && r.db.items[id] == Item(model, publicId, serial, batch, upi, manufactured, Original, SM.Draft,
                                            [], [], [], []))
  {
  }

  /** New evidence waits for its upload; a new request is open for catalogue fields of a stored model. */
  lemma AddOthersMeans(db: Db, id: Id, model: Id, fields: set<int>, expires: int)
    ensures AddEvidence(db, id).Done? ==>
              AddEvidence(db, id).db == db.(evidence := db.evidence[id := Evidence(PendingUpload, None, None, false)])
    ensures var r := AddRequest(db, id, model, fields, expires);
            && (r.Done? <==> model in db.models && id !in db.requests && forall f :: f in fields ==> 1 <= f <= 71)
            && (r.Done? ==>
                  r.db == db.(requests :=
                                db.requests[id := SupplierRequest(model, fields, DraftRequest, expires, map[])]))
  {
  }

  // ---- reviews and validation ----

  /** The request states a decision, with a reason, for each field the model's category asks for, and no other. */
  ghost predicate DecidesEach(env: Env, category: Category, decisions: seq<Decision>) {
    && (forall i :: 0 <= i < |decisions| ==>
          && 1 <= decisions[i].fieldId <= 71 && 10 <= |CO.Utf16(Trim(decisions[i].reason))| <= 1000
          && AM.Asked(env.rules.fields, category, decisions[i].fieldId))
    && (forall i, j :: 0 <= i < j < |decisions| ==> decisions[i].fieldId != decisions[j].fieldId)
    && (forall id :: AM.Asked(env.rules.fields, category, id) ==>
          exists i :: 0 <= i < |decisions| && decisions[i].fieldId == id)
  }

  lemma ParsedMeansDecides(env: Env, category: Category, decisions: seq<Decision>)
    ensures AllParse(decisions) && ListsOnce(decisions, ConditionalIds(env.rules.fields, category)) <==>
            DecidesEach(env, category, decisions)
  {
    hide ConditionalIds, AM.Asked, Trim, CO.Utf16, Utf16Length;
    forall id ensures id in ConditionalIds(env.rules.fields, category) <==> AM.Asked(env.rules.fields, category, id) {
      AM.ConditionalAreAsked(env.rules.fields, category, id);
    }
    forall i | 0 <= i < |decisions| {
      AM.LengthCountsUnits(Trim(decisions[i].reason));
    }
  }

  /** A review is stored if it is complete; the model's passports are then withdrawn. */
  lemma ReviewMeans(env: Env, db: Db, model: Id, decisions: seq<Decision>, actor: string, at: string)
    ensures var r := ReviewApplicability(env, db, model, decisions, actor, at);
            && (r.Done? <==> model in db.models && DecidesEach(env, db.models[model].category, decisions)
                             && !AM.AllBlank(actor) && env.rules.dateOk(at))
            && (r.Done? ==>
                  var m := db.models[model];
                  && var context := Reviewed(env.rules, m.category, m.context, decisions, actor, at);
                  && r.db.models == db.models[model := m.(context := context)]
                  && OwnerWithdrawn(db.items, r.db.items, OfModel(model))
                  && r.db == db.(models := r.db.models, items := r.db.items))
  {
    hide Complete, AllParse, ListsOnce, Invalidate, OwnerWithdrawn, DecidesEach, Reviewed;
    if model in db.models {
      FreshReviewComplete(env.rules, db.models[model].category, db.models[model].context, decisions, actor, at);
      ParsedMeansDecides(env, db.models[model].category, decisions);
      assert NotBlank(actor) <==> !AM.AllBlank(actor);
      InvalidateMeans(db.items, OfModel(model));
    }
  }

  /**
   Validation moves the state and nothing else: a published item stays or is updated, any other is
   ready or failed.
   */
  lemma ValidateMeans(env: Env, db: Db, id: Id, now: int)
    ensures var r := Validate(env, db, id, now);
            && (r.Done? <==> Alive(db, OfItem(id)))
            && (r.Done? ==>
                  var was, next := db.items[id], r.db.items[id];
                  && next == was.(state := next.state)
                  && next.state == (if was.state in {SM.Published, SM.Registered, SM.RegistryPending}
                                    then if Publishable(env, db, id, now) then was.state else SM.Updated
                                    else if Publishable(env, db, id, now) then SM.Ready else SM.ValidationFailed)
                  && r.db == db.(items := db.items[id := next]))
  {
    hide Publishable;
    LockedMeansAlive(db, OfItem(id));
  }
}
