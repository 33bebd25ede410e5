/** The endpoints as methods over the stored rows, each proved to perform its transaction. */
module PassportService {
  import opened Prelude
  import opened CanonicalJson
  import CO = CanonicalOrder
  import opened Readiness
  import opened Applicability
  import opened PassportValues
  import opened PassportTables
  import opened PassportSteps
  import opened PassportInvariant
  import SM = StateMachine

  /** A transaction either commits the outcome's rows or reports its code and leaves all rows alone. */
  ghost predicate Performs(before: Db, outcome: Outcome, result: Option<Code>, after: Db) {
    match outcome
    case Done(db) => result == None && after == db
    case Refused(code) => result == Some(code) && after == before
  }

  class PassportDb {
    const env: Env
    var models: map<Id, Model>
    var items: map<Id, Item>
    var values: Values
    var links: set<Link>
    var evidence: map<Id, Evidence>
    var requests: map<Id, SupplierRequest>

    constructor (env: Env)
      ensures this.env == env && Contents() == Db(map[], map[], Table([], {}), map[], map[])
    {
      this.env := env;
      models, items, values, links, evidence, requests := map[], map[], [], {}, map[], map[];
    }

    function Contents(): Db
      reads this
    {
      Db(models, items, Table(values, links), evidence, requests)
    }

    ghost predicate Valid()
      reads this
    {
      Inv(env, Contents())
    }

    // ---- shared steps ----

    /**
     Two updates, one after the other. Neither makes a state that the other looks for, so an item
     is changed at most once.
     */
    method InvalidatePassports(owner: Owner)
      modifies this`items
      ensures items == Invalidate(old(items), {owner})
    {
      items := map id | id in items ::
        if Belongs(id, items[id], {owner}) && SM.IsPublished(items[id].state) then items[id].(state := SM.Updated)
            else items[id];
      items := map id | id in items ::
        if Belongs(id, items[id], {owner}) && items[id].state == SM.Ready then items[id].(state := SM.DataCollection)
            else items[id];
    }

    /** The newest current row of an owner and field. */
    method FindCurrent(owner: Owner, field: int) returns (prior: Option<Id>)
      ensures prior == CurrentId(values, owner, field)
    {
      prior := None;
      var n := 0;
      while n < |values|
        invariant n <= |values|
        invariant prior == CurrentId(values[..n], owner, field)
      {
        assert values[..n + 1][..n] == values[..n];
        if Current(values[n], owner, field) {
          prior := Some(n);
        }
        n := n + 1;
      }
      assert values[..n] == values;
    }

    /** Supersedes the current row, if any, and creates its successor. */
    method PutValue(owner: Owner, field: int, json: Json, unit: Option<string>, source: Source, status: Status,
                    now: int)
      modifies this`values
      ensures values == Put(old(values), owner, field, json, unit, source, status, now)
    {
      var prior := FindCurrent(owner, field);
      if prior.Some? {
        var row := values[prior.value];
        values := values[prior.value := row.(until := Some(now), status := Superseded)];
      }
      values := values + [Value(owner, field, json, unit, source, status, None, prior)];
    }

    // ---- values ----

    method CreateValue(owner: Owner, field: int, json: Json, unit: Option<string>, source: Source, now: int)
      returns (result: Option<Code>)
      requires Valid()
      modifies this
      ensures Performs(old(Contents()),
                       PassportSteps.CreateValue(old(Contents()), owner, field, json, unit, source, now),
                       result, Contents())
      ensures Valid()
    {
      ghost var before := Contents();
      if !(1 <= field <= FIELDS) {
        return Some(BadRequest);
      }
      var locked := LockOwner(Contents(), owner);
      if locked.Some? {
        return locked;
      }
      CreateValueKeeps(env, before, owner, field, json, unit, source, now);
      PutValue(owner, field, json, unit, source, Unvalidated, now);
      InvalidatePassports(owner);
      result := None;
    }

    method ValidateValue(id: Id, now: int) returns (result: Option<Code>)
      requires Valid()
      modifies this
      ensures Performs(old(Contents()), PassportSteps.ValidateValue(env, old(Contents()), id, now), result, Contents())
      ensures Valid()
    {
      ghost var before := Contents();
      if id >= |values| {
        return Some(NotFound);
      }
      var locked := LockOwner(Contents(), values[id].owner);
      if locked.Some? {
        return locked;
      }
      if values[id].until.Some? || values[id].status == Superseded || values[id].status == Rejected {
        return Some(ValueNotCurrent);
      }
      if UsableEvidence(env, links, evidence, id, now) == {} {
        return Some(ProvenanceRequired);
      }
      ValidateValueKeeps(env, before, id, now);
      if values[id].status != Validated {
        InvalidatePassports(values[id].owner);
      }
      values := values[id := values[id].(status := Validated)];
      result := None;
    }

    method RejectValue(id: Id, now: int) returns (result: Option<Code>)
      requires Valid()
      modifies this
      ensures Performs(old(Contents()), PassportSteps.RejectValue(old(Contents()), id, now), result, Contents())
      ensures Valid()
    {
      ghost var before := Contents();
      if id >= |values| {
        return Some(NotFound);
      }
      var owner := values[id].owner;
      var locked := LockOwner(Contents(), owner);
      if locked.Some? {
        return locked;
      }
      if values[id].until.Some? {
        return Some(ValueNotCurrent);
      }
      RejectValueKeeps(env, before, id, now);
      values := values[id := values[id].(status := Rejected, until := Some(now))];
      InvalidatePassports(owner);
      result := None;
    }

    // ---- evidence ----

    method LinkEvidence(evidenceId: Id, id: Id) returns (result: Option<Code>)
      requires Valid()
      modifies this
      ensures Performs(old(Contents()), PassportSteps.LinkEvidence(old(Contents()), evidenceId, id), result, Contents())
      ensures Valid()
    {
      ghost var before := Contents();
      if evidenceId !in evidence || id >= |values| {
        return Some(NotFound);
      }
      var locked := LockOwner(Contents(), values[id].owner);
      if locked.Some? {
        return locked;
      }
      if Unusable(evidence[evidenceId].status) {
        return Some(EvidenceNotReady);
      }
      LinkEvidenceKeeps(env, before, evidenceId, id);
      links := links + {Link(evidenceId, id)};
      InvalidatePassports(values[id].owner);
      result := None;
    }

    /** Rejects an evidence object and, link by link, invalidates the passports that rest on it. */
    method RejectEvidence(evidenceId: Id) returns (result: Option<Code>)
      requires Valid()
      modifies this
      ensures Performs(old(Contents()), PassportSteps.RejectEvidence(old(Contents()), evidenceId), result, Contents())
      ensures Valid()
    {
      ghost var before := Contents();
      if evidenceId !in evidence {
        return Some(NotFound);
      }
      if Unusable(evidence[evidenceId].status) {
        return Some(EvidenceChanged);
      }
      RejectEvidenceKeeps(env, before, evidenceId);
      evidence := evidence[evidenceId := evidence[evidenceId].(status := RejectedEvidence, scanned := false)];
      InvalidateLinked(evidenceId);
      result := None;
    }

    method InvalidateLinked(evidenceId: Id)
      requires LinksKnown(Table(values, links))
      modifies this`items
      ensures items == Invalidate(old(items), LinkedOwners(Table(values, links), evidenceId))
    {
      ghost var before := items;
      var todo := set l | l in links && l.evidence == evidenceId;
      ghost var owners: set<Owner> := {};
      assert Invalidate(before, {}) == before;
      while todo != {}
        invariant todo <= links
        invariant items == Invalidate(before, owners)
        invariant forall o :: o in owners ==> o in LinkedOwners(Table(values, links), evidenceId)
        invariant forall l :: l in links && l.evidence == evidenceId && l !in todo ==> values[l.value].owner in owners
        invariant forall l :: l in todo ==> l.evidence == evidenceId
        decreases todo
      {
        var l :| l in todo;
        InvalidatePassports(values[l.value].owner);
        InvalidateTwice(before, owners, values[l.value].owner);
        owners := owners + {values[l.value].owner};
        todo := todo - {l};
      }
      AllOwners(Table(values, links), evidenceId, owners);
    }

    // ---- suppliers ----

    /** The submissions are stored one by one; the first that may not be stored undoes the whole body. */
    method Submit(request: Id, body: seq<Posted>, now: int) returns (result: Option<Code>)
      requires Valid()
      modifies this
      ensures Performs(old(Contents()), PassportSteps.Submit(old(Contents()), request, body, now), result, Contents())
      ensures Valid()
    {
      ghost var before := Contents();
      if |body| < 1 || |body| > FIELDS {
        return Some(BadRequest);
      }
      if request !in requests {
        return Some(NotFound);
      }
      var r := requests[request];
      var open := OpenRequest(r, now);
      if open.Some? {
        return open;
      }
      var stored := r.submissions;
      for n := 0 to |body|
        invariant stored == WithPosted(r.submissions, body[..n])
        invariant FirstProblem(body, r.fields, evidence.Keys) == FirstProblem(body[n..], r.fields, evidence.Keys)
      {
        assert body[n..][0] == body[n] && body[n..][1..] == body[n + 1..];
        if body[n].s.field !in r.fields {
          return Some(FieldNotRequested);
        }
        if !(body[n].s.evidence <= evidence.Keys) {
          return Some(NotFound);
        }
        assert body[..n + 1][..n] == body[..n];
        stored := stored[body[n].id := body[n].s];
      }
      assert body[..|body|] == body;
      SubmitKeeps(env, before, request, body, now);
      requests := requests[request := r.(submissions := stored, status := SubmittedRequest)];
      result := None;
    }

    /** The acceptance loops: over the submissions in listed order, and over each one's evidence. */
    method Accept(request: Id, listed: seq<Id>, now: int) returns (result: Option<Code>)
      requires Valid()
      requires request in requests ==> Ordered(requests[request].submissions, listed)
      modifies this
      ensures Performs(old(Contents()), PassportSteps.Accept(old(Contents()), request, listed, now), result, Contents())
      ensures Valid()
    {
      ghost var before := Contents();
      if request !in requests || requests[request].model !in models {
        return Some(NotFound);
      }
      var r := requests[request];
      var open := OpenRequest(r, now);
      if open.Some? {
        return open;
      }
      if r.submissions == map[] {
        return Some(NoSubmissions);
      }
      if exists e :: e in EvidenceIn(r.submissions) && (e !in evidence || Unusable(evidence[e].status)) {
        return Some(EvidenceNotReady);
      }
      AcceptKeeps(env, before, request, listed, now);
      AcceptSubmissions(r.model, r.submissions, listed, now);
      requests := requests[request := r.(status := AcceptedRequest)];
      InvalidatePassports(OfModel(r.model));
      result := None;
    }

    method AcceptSubmissions(model: Id, submissions: map<Id, Submission>, listed: seq<Id>, now: int)
      requires forall id :: id in listed ==> id in submissions
      modifies this`values, this`links
      ensures Table(values, links) == AcceptAll(old(Table(values, links)), model, Listed(submissions, listed), now)
    {
      ghost var before, all := Table(values, links), Listed(submissions, listed);
      var n := 0;
      while n < |listed|
        invariant n <= |listed|
        invariant Table(values, links) == AcceptAll(before, model, all[..n], now)
      {
        assert all[..n + 1][..n] == all[..n] && all[..n + 1][n] == all[n];
        AcceptSubmission(model, submissions[listed[n]], now);
        n := n + 1;
      }
      assert all[..n] == all;
    }

    method AcceptSubmission(model: Id, s: Submission, now: int)
      modifies this`values, this`links
      ensures Table(values, links) == AcceptOne(old(Table(values, links)), model, s, now)
    {
      var id := |values|;
      PutValue(OfModel(model), s.field, s.json, s.unit, Supplier, Submitted, now);
      LinkAll(s.evidence, id);
    }

    method LinkAll(evidenceIds: set<Id>, id: Id)
      modifies this`links
      ensures links == old(links) + LinksTo(evidenceIds, id)
    {
      var todo := evidenceIds;
      assert LinksTo(evidenceIds - todo, id) == {};
      while todo != {}
        invariant todo <= evidenceIds
        invariant links == old(links) + LinksTo(evidenceIds - todo, id)
        decreases todo
      {
        var e :| e in todo;
        links := links + {Link(e, id)};
        assert evidenceIds - (todo - {e}) == (evidenceIds - todo) + {e};
        LinksToOneMore(evidenceIds - todo, e, id);
        todo := todo - {e};
      }
      assert evidenceIds - todo == evidenceIds;
    }

    // ---- lifecycle ----

    method RecordEvent(id: Id, kind: EventKind, newStatus: Option<Lifecycle>, previous: Option<nat>)
      returns (result: Option<Code>)
      requires Valid()
      modifies this
      ensures Performs(old(Contents()), PassportSteps.RecordEvent(old(Contents()), id, kind, newStatus, previous),
                       result, Contents())
      ensures Valid()
    {
      hide Inv;
      ghost var before := Contents();
      if (kind == Repurpose || kind == Reuse || kind == Remanufacture) && previous.None? {
        return Some(PriorPassportRequired);
      }
      var status := StatusFor(kind);
      if (kind == StatusChange && newStatus != Some(Waste)) || (newStatus.Some? && newStatus != status) {
        return Some(EventStatusMismatch);
      }
      var locked := LockItem(Contents(), id);
      if locked.Some? {
        return locked;
      }
      var item := items[id];
      if previous.Some? && LatestNo(item) != previous {
        return Some(PriorPassportInvalid);
      }
      RecordEventKeeps(env, before, id, kind, newStatus, previous);
      var end := if status.Some? then status.value else item.lifecycle;
      item := item.(events := item.events + [Event(kind, item.lifecycle, end)]);
      if kind == Recycle {
        items := items[id := item.(lifecycle := EndOfLife, state := SM.Recycled)];
      } else {
        item := item.(state := SM.Invalidated(item.state));
        if status.Some? {
          item := item.(lifecycle := status.value);
        }
        items := items[id := item];
      }
      assert items[id] == Noted(before.items[id], kind);
      result := None;
    }

    method Ingest(id: Id, readings: seq<Json>) returns (result: Option<Code>)
      requires Valid()
      modifies this
      ensures Performs(old(Contents()), PassportSteps.Ingest(old(Contents()), id, readings), result, Contents())
      ensures Valid()
    {
      ghost var before := Contents();
      if !(1 <= |readings| <= 1000) {
        return Some(BadRequest);
      }
      var locked := LockItem(Contents(), id);
      if locked.Some? {
        return locked;
      }
      IngestKeeps(env, before, id, readings);
      var stored := items[id].readings;
      for n := 0 to |readings|
        invariant stored == before.items[id].readings + readings[..n]
      {
        stored := stored + [readings[n]];
      }
      assert readings[..|readings|] == readings;
      items := items[id := items[id].(readings := stored, state := SM.Invalidated(items[id].state))];
      result := None;
    }

    // ---- applicability ----

    method ReviewApplicability(model: Id, decisions: seq<Decision>, actor: string, at: string)
      returns (result: Option<Code>)
      requires Valid()
      modifies this
      ensures Performs(old(Contents()), PassportSteps.ReviewApplicability(env, old(Contents()), model, decisions,
          actor, at), result, Contents())
      ensures Valid()
    {
      ghost var before := Contents();
      if model !in models {
        return Some(NotFound);
      }
      var category := models[model].category;
      var context := Reviewed(env.rules, category, models[model].context, decisions, actor, at);
      var complete, _, _ := AssessConditionalReview(env.rules, category, context);
      if !complete {
        return Some(ReviewIncomplete);
      }
      ReviewKeeps(env, before, model, decisions, actor, at);
      models := models[model := models[model].(context := context)];
      InvalidatePassports(OfModel(model));
      result := None;
    }

    // ---- passports ----

    /** `loadMergedTx`: the model's current values, overwritten by the item's. */
    method LoadMerged(h: Holder) returns (merged: map<int, Id>)
      requires OneCurrent(values)
      ensures forall f :: MergedId(values, h, f) == if f in merged then Some(merged[f]) else None
    {
      merged := map[];
      for n := 0 to |values|
        invariant forall f :: CurrentId(values[..n], OfModel(h.model), f) == if f in merged then Some(merged[f])
                  else None
      {
        assert values[..n + 1][..n] == values[..n];
        if values[n].owner == OfModel(h.model) && values[n].until.None? {
          merged := merged[values[n].field := n];
        }
      }
      assert values[..|values|] == values;
      ghost var inherited := merged;
      for n := 0 to |values|
        invariant forall f :: (if f in merged then Some(merged[f]) else None) ==
                              if CurrentId(values[..n], OfItem(h.item), f).Some?
                                  then CurrentId(values[..n], OfItem(h.item), f)
                              else CurrentId(values, OfModel(h.model), f)
      {
        assert values[..n + 1][..n] == values[..n];
        if values[n].owner == OfItem(h.item) && values[n].until.None? {
          merged := merged[values[n].field := n];
        }
      }
      assert values[..|values|] == values;
    }

    /** `validateTx` */
    method CheckPublishable(id: Id, now: int) returns (publishable: bool)
      requires HasModel(Contents(), id) && OneCurrent(values)
      ensures publishable <==> Publishable(env, Contents(), id, now)
    {
      var item, h := items[id], Holder(id, items[id].model);
      var model := models[item.model];
      var merged := LoadMerged(h);
      var inputs: seq<Input> := [];
      for f := 0 to FIELDS
        invariant inputs == Inputs(env, Contents(), h, now, f)
      {
        if f + 1 in merged {
          inputs := inputs + [InputOf(env, Contents(), merged[f + 1], now)];
        } else {
          assert inputs + [] == inputs;
        }
      }
      var report := CalculateReadiness(env.rules.fields, model.category, inputs, ApplicableSet(model.context));
      var complete, _, _ := AssessConditionalReview(env.rules, model.category, model.context);
      publishable := report.blockers == [] && report.warnings == [] && complete
                     && CrossFieldsOk(env, values, h, item.manufactured, now)
                     && StatusFieldOk(values, h, item.lifecycle) && IsOpen(item);
    }

    /** Validating never meets a forbidden transition. */
    method Validate(id: Id, now: int) returns (result: Option<Code>)
      requires Valid()
      modifies this
      ensures Performs(old(Contents()), PassportSteps.Validate(env, old(Contents()), id, now), result, Contents())
      ensures Valid()
    {
      hide Inv, Publishable, PassportSteps.Validate;
      InvIsChained(env, Contents());
      ghost var before := Contents();
      ValidateIsDone(env, before, id, now);
      var locked := LockItem(Contents(), id);
      if locked.Some? {
        return locked;
      }
      ValidateKeeps(env, before, id, now);
      var state := items[id].state;
      var publishable := CheckPublishable(id, now);
      var target := if SM.IsPublished(state) then if publishable then state else SM.Updated
                    else if publishable then SM.Ready else SM.ValidationFailed;
      var current := if state == SM.Draft then SM.DataCollection else state;
      SM.ValidationIsPermitted(state, publishable);
      assert current == target || SM.CanTransition(current, target);
      items := items[id := items[id].(state := target)];
      result := None;
    }

    /** Serialises the locked rows, appends the version, and makes its projection the one active snapshot. */
    method Publish(id: Id, now: int, generatedAt: string, ruleSet: string, order: Id -> seq<Id>)
      returns (result: Option<Code>)
      requires Valid() && ListsLinks(order, links)
      modifies this
      ensures Performs(old(Contents()),
                       PassportSteps.Publish(env, old(Contents()), id, now, generatedAt, ruleSet, order),
                       result, Contents())
      ensures Valid()
    {
      hide Inv, Publishable, WithVersion, ListsLinks, UpiTaken, PassportSteps.Publish, DocValues;
      InvIsChained(env, Contents());
      ghost var before := Contents();
      result := FindRefusal(id, now);
      if result.Some? {
        return;
      }
      PublishIsDone(env, before, id, now, generatedAt, ruleSet, order);
      PublishKeeps(env, before, id, now, generatedAt, ruleSet, order);
      var item := items[id];
      var listed := ListValues(Holder(id, item.model), order);
      var doc := Document(SCHEMA, ruleSet, generatedAt, LiveBattery(env, id, item, models[item.model]), listed);
      item := AppendVersion(item, doc, now);
      items := items[id := item];
    }

    /** The first reason not to publish the item. */
    method FindRefusal(id: Id, now: int) returns (code: Option<Code>)
      requires Valid()
      ensures code.None? <==>
                && LockItem(Contents(), id).None? && (items[id].state == SM.Ready || items[id].state == SM.Updated)
                && Publishable(env, Contents(), id, now) && !UpiTaken(Contents(), id, UpiOf(env, items[id]))
      ensures forall generatedAt, ruleSet, order :: code.Some? ==>
                PassportSteps.Publish(env, Contents(), id, now, generatedAt, ruleSet, order) == Refused(code.value)
    {
      hide Inv, Publishable, WithVersion, NextDocument;
      InvIsChained(env, Contents());
      var locked := LockItem(Contents(), id);
      if locked.Some? {
        return locked;
      }
      var item := items[id];
      if item.state != SM.Ready && item.state != SM.Updated {
        return Some(PassportNotReady);
      }
      var publishable := CheckPublishable(id, now);
      if !publishable {
        return Some(PassportNotPublishable);
      }
      if exists other :: other in items && other != id && items[other].upi == Some(UpiOf(env, item)) {
        return Some(IdentifierTaken);
      }
      code := None;
    }

    /** The version row with its hash chain, then the snapshots. */
    method AppendVersion(item: Item, doc: Document, now: int) returns (after: Item)
      ensures after == WithVersion(env, item, doc, now)
    {
      hide DocumentJson, PublicJson, Project, UpiOf;
      var latest := |item.versions|;
      var no := if latest == 0 then 1 else item.versions[latest - 1].versionNo + 1;
      var version := Version(no, SCHEMA, doc.ruleSet, doc, CO.HashJson(DocumentJson(env, doc)),
                             if latest == 0 then None else Some(item.versions[latest - 1].sha256), true, Some(now));
      var shown := Project(env, doc);
      var snapshots := DeactivateAll(item.snapshots);
      after := item.(state := SM.Published, upi := Some(UpiOf(env, item)), versions := item.versions + [version],
                     snapshots := snapshots + [Snapshot(no, shown, CO.HashJson(PublicJson(env, shown)), true)]);
    }

    method ListValues(h: Holder, order: Id -> seq<Id>) returns (listed: seq<DocValue>)
      requires OneCurrent(values)
      ensures listed == DocValues(env, values, h, order, FIELDS)
    {
      var merged := LoadMerged(h);
      listed := [];
      for f := 0 to FIELDS
        invariant listed == DocValues(env, values, h, order, f)
      {
        if f + 1 in merged {
          listed := listed + [DocValue(ContentOf(env, values[merged[f + 1]]), order(merged[f + 1]))];
        } else {
          assert listed + [] == listed;
        }
      }
    }

    method DeactivateAll(snapshots: seq<Snapshot>) returns (after: seq<Snapshot>)
      ensures after == Deactivated(snapshots)
    {
      after := [];
      for n := 0 to |snapshots|
        invariant after == Deactivated(snapshots[..n])
      {
        var s := snapshots[n];
        after := after + [if s.active then s.(active := false) else s];
      }
      assert snapshots[..|snapshots|] == snapshots;
    }
  }

  /** Invalidating for one more owner. */
  lemma InvalidateTwice(items: map<Id, Item>, owners: set<Owner>, owner: Owner)
    ensures Invalidate(Invalidate(items, owners), {owner}) == Invalidate(items, owners + {owner})
  {
  }

  lemma AllOwners(t: Table, evidence: Id, owners: set<Owner>)
    requires LinksKnown(t)
    requires forall o :: o in owners ==> o in LinkedOwners(t, evidence)
    requires forall l :: l in t.links && l.evidence == evidence ==> t.values[l.value].owner in owners
    ensures owners == LinkedOwners(t, evidence)
  {
  }

  lemma LinksToOneMore(evidence: set<Id>, e: Id, id: Id)
    ensures LinksTo(evidence + {e}, id) == LinksTo(evidence, id) + {Link(e, id)}
  {
  }
}
