/**
 What the Registry preparation reads of the passports: two of the codes it has for a
 candidate never arise for rows that the endpoints wrote.
 */
module RegistryCandidates {
  import opened Prelude
  import opened CanonicalJson
  import opened PassportValues
  import opened PassportTables
  import opened PassportSteps
  import opened PassportRuns
  import opened PassportHistory
  import PI = PassportInvariant
  import RD = RegistryDraft
  import CO = CanonicalOrder
  import SM = StateMachine

  /** Parts of `battery` that the preparation compares, in the JSON the database returns. */
  predicate BatteryTextIs(doc: CO.Value, key: string, text: string) {
    IsText(Get(Get(Some(doc), "battery"), key), text)
  }

  /** The candidate was read from the item's rows; `spell` is the hexadecimal text of a digest. */
  ghost predicate ReadAs(env: Env, db: Db, id: Id, now: int, row: Stored, spell: CO.Digest -> string, c: RD.Candidate) {
    && HasModel(db, id)
    && var item := db.items[id];
    && c.item.id == env.idText(id) && c.item.current == SM.IsPublished(item.state)
    && c.item.publishable == Publishable(env, db, id, now)
    && c.item.upi == item.upi && c.item.serial == item.serial
    && c.item.category == CategoryText(ModelOf(db, id).category)
    && (c.latest.Some? <==> item.versions != [])
    && (c.latest.Some? ==>
          && ReadBack(env, item.versions[|item.versions| - 1], row)
          && var v := c.latest.value;
          && v.schemaVersion == row.schemaVersion && v.ruleSetVersion == row.ruleSet
          && v.sha256 == spell(row.sha256) && v.documentHash == spell(CO.HashJson(row.json))
          && var doc := CO.Meaning(row.json);
          && BatteryTextIs(doc, "upi", v.document.upi) && BatteryTextIs(doc, "serial", v.document.serial)
          && BatteryTextIs(doc, "category", v.document.category)
          && IsText(Get(Some(doc), "schema"), v.document.schema)
          && IsText(Get(Some(doc), "ruleSetVersion"), v.document.ruleSetVersion))
  }

  // ---- a published item's identifier ----

  /** An item that was ever published carries the identifier it was published under. */
  predicate UpiSettled(env: Env, item: Item) {
    item.versions != [] ==> item.upi == Some(UpiOf(env, item))
  }

  lemma StepKeepsSettled(env: Env, db: Db, step: Step, id: Id)
    requires Enabled(db, step) && (id in db.items ==> UpiSettled(env, db.items[id])) && id in Apply(env, db, step).items
    ensures UpiSettled(env, Apply(env, db, step).items[id])
  {
    hide CreateValue, ValidateValue, RejectValue, Accept, Submit, ReviewApplicability, RejectEvidence, LinkEvidence,
        Publishable;
    hide OpenPortal, ChangeEvidence, AddModel, AddEvidence, AddRequest, NextDocument, NextVersion, Project, UpiTaken;
    if !WritesOneItem(step) {
      OtherStepsInvalidate(env, db, step, id);
    }
  }

  lemma {:induction false} RunSettled(env: Env, states: seq<Db>, steps: seq<Step>, n: nat, id: Id)
    requires IsRun(env, states, steps) && n < |states| && id in states[n].items
    ensures UpiSettled(env, states[n].items[id])
  {
    hide Apply, Enabled;
    if n > 0 {
      if id in states[n - 1].items {
        RunSettled(env, states, steps, n - 1, id);
      }
      StepKeepsSettled(env, states[n - 1], steps[n - 1], id);
    }
  }

  // ---- the published identity ----

  lemma BatteryTexts(env: Env, b: Battery)
    ensures var battery := Some(CO.Meaning(BatteryJson(env, b)));
            && IsText(Get(battery, "serial"), b.serial) && IsText(Get(battery, "upi"), b.upi)
            && IsText(Get(battery, "category"), CategoryText(b.category))
  {
    hide CategoryText, LifecycleText, TextOrNull;
    BatteryKeysDistinct(env, b);
    var members := BatteryJson(env, b).members;
    CO.MeaningAt(members, members[4]);
    CO.MeaningAt(members, members[6]);
    CO.MeaningAt(members, members[7]);
  }

  lemma BatteryKeysDistinct(env: Env, b: Battery)
    ensures DistinctKeys(BatteryJson(env, b).members)
  {
    hide CategoryText, LifecycleText, TextOrNull;
  }

  /** What the preparation finds in a published item's latest version is what the item says. */
  lemma IdentityAgrees(env: Env, states: seq<Db>, steps: seq<Step>, n: nat, id: Id, now: int, row: Stored,
                       spell: CO.Digest -> string, c: RD.Candidate, isUuid: string -> bool)
    requires IsRun(env, states, steps) && n < |states| && SpellsWell(env, isUuid)
    requires ReadAs(env, states[n], id, now, row, spell, c) && c.item.current
    ensures c.latest.Some? && c.item.upi.Some?
    ensures var v := c.latest.value;
            && v.document.upi == c.item.upi.value && v.document.serial == c.item.serial
            && v.document.category == c.item.category && v.document.schema == v.schemaVersion
            && v.document.ruleSetVersion == v.ruleSetVersion && v.documentHash == v.sha256
  {
    hide Apply, Enabled, BatteryJson, DocumentJson, Publishable, WellFormed, SpellsWell, UpiOf;
    var item := states[n].items[id];
    RunInv(env, states, steps, n);
    assert PI.PublishedInv(env, states[n], id) && PI.ItemInv(env, id, item);
    RunSettled(env, states, steps, n, id);
    var last := |item.versions| - 1;
    var v := item.versions[last];
    assert PI.VersionInv(env, id, item, last);
    VersionDocumentOk(env, states, steps, n, id, last);
    ReadBackHash(env, v, row, isUuid);
    DocumentFields(env, v.document);
    BatteryTexts(env, v.document.battery);
  }

  // ---- the codes ----

  /** Every candidate was read from some item of the rows, under that item's id. */
  ghost predicate AllRead(env: Env, db: Db, now: int, spell: CO.Digest -> string, found: map<string, RD.Candidate>) {
    forall s :: s in found ==> exists id, row :: s == env.idText(id) && ReadAs(env, db, id, now, row, spell, found[s])
  }

  /** The records collected so far carry UPIs of earlier items of the request. */
  lemma {:induction false} CollectedUpis(itemIds: seq<string>, n: nat, found: map<string, RD.Candidate>,
                                         urlAccepted: string -> bool, upi: string)
    requires n <= |itemIds| && upi in RD.UpisOf(RD.Collected(itemIds, n, found, urlAccepted).records)
    ensures exists i :: 0 <= i < n && itemIds[i] in found && found[itemIds[i]].item.upi == Some(upi)
    decreases n
  {
    hide RD.CodeOf, RD.RecordFor;
    if n > 0 {
      var before := RD.Collected(itemIds, n - 1, found, urlAccepted);
      if upi in RD.UpisOf(before.records) {
        CollectedUpis(itemIds, n - 1, found, urlAccepted, upi);
      } else {
        NewRecord(itemIds, n, found, urlAccepted, upi);
      }
    }
  }

  lemma NewRecord(itemIds: seq<string>, n: nat, found: map<string, RD.Candidate>, urlAccepted: string -> bool,
                  upi: string)
    requires 0 < n <= |itemIds| && upi in RD.UpisOf(RD.Collected(itemIds, n, found, urlAccepted).records)
    requires upi !in RD.UpisOf(RD.Collected(itemIds, n - 1, found, urlAccepted).records)
    ensures itemIds[n - 1] in found && found[itemIds[n - 1]].item.upi == Some(upi)
  {
    var records := RD.Collected(itemIds, n - 1, found, urlAccepted).records;
    var r :| r in RD.Collected(itemIds, n, found, urlAccepted).records && r.upi == upi;
    assert r !in records;
  }

  /** The codes that no candidate gets. */
  predicate Impossible(code: RD.Code) {
    code == RD.PublishedIdentityMismatch || code == RD.DuplicateUpi
  }

  lemma CodeIsPossible(env: Env, states: seq<Db>, steps: seq<Step>, n: nat, now: int, spell: CO.Digest -> string,
                       isUuid: string -> bool, itemIds: seq<string>, k: nat, found: map<string, RD.Candidate>,
                       urlAccepted: string -> bool)
    requires IsRun(env, states, steps) && n < |states| && SpellsWell(env, isUuid)
    requires AllRead(env, states[n], now, spell, found) && RD.Request(itemIds) && k < |itemIds| && itemIds[k] in found
    ensures var upis := RD.UpisOf(RD.Collected(itemIds, k, found, urlAccepted).records);
            var code := RD.CodeOf(found[itemIds[k]], upis, urlAccepted);
            code.Some? ==> !Impossible(code.value)
  {
    hide IsRun, SpellsWell, ReadAs, RD.ValidUpi, RD.Collected;
    var c := found[itemIds[k]];
    var upis := RD.UpisOf(RD.Collected(itemIds, k, found, urlAccepted).records);
    var id, row :| itemIds[k] == env.idText(id) && ReadAs(env, states[n], id, now, row, spell, c);
    if c.item.current {
      IdentityAgrees(env, states, steps, n, id, now, row, spell, c, isUuid);
      if c.item.upi.value in upis {
        CollectedUpis(itemIds, k, found, urlAccepted, c.item.upi.value);
        var i :| 0 <= i < k && itemIds[i] in found && found[itemIds[i]].item.upi == c.item.upi;
        UpisDiffer(env, states, steps, n, now, spell, itemIds[i], itemIds[k], found);
      }
    }
  }

  lemma UpisDiffer(env: Env, states: seq<Db>, steps: seq<Step>, n: nat, now: int, spell: CO.Digest -> string,
                   a: string, b: string, found: map<string, RD.Candidate>)
    requires IsRun(env, states, steps) && n < |states| && AllRead(env, states[n], now, spell, found)
    requires a in found && b in found && a != b && found[a].item.upi.Some?
    ensures found[a].item.upi != found[b].item.upi
  {
    hide IsRun, Publishable;
    var i, rowI :| a == env.idText(i) && ReadAs(env, states[n], i, now, rowI, spell, found[a]);
    var j, rowJ :| b == env.idText(j) && ReadAs(env, states[n], j, now, rowJ, spell, found[b]);
    UpisStayApart(env, states, steps, n);
    assert i != j;
  }

  predicate AllPossible(c: RD.Collection) {
    forall i :: 0 <= i < |c.invalid| ==> !Impossible(c.invalid[i].1)
  }

  lemma OneMoreCode(sofar: RD.Collection, id: string, found: map<string, RD.Candidate>, urlAccepted: string -> bool)
    requires AllPossible(sofar)
    requires id in found ==>
               var code := RD.CodeOf(found[id], RD.UpisOf(sofar.records), urlAccepted);
               code.Some? ==> !Impossible(code.value)
    ensures AllPossible(RD.Collect(sofar, id, found, urlAccepted))
  {
    hide RD.CodeOf, RD.RecordFor;
  }

  lemma NonePossible()
    ensures AllPossible(RD.Collection([], []))
  {
  }

  /**
   For candidates read from any reachable rows, in whatever key order the database
   returns the documents, no item is refused for a document that does not match it or
   for an identifier that occurs twice.
   */
  lemma {:induction false} CodesArePossible(env: Env, states: seq<Db>, steps: seq<Step>, n: nat, now: int,
                                            spell: CO.Digest -> string, isUuid: string -> bool, itemIds: seq<string>,
                                            k: nat, found: map<string, RD.Candidate>, urlAccepted: string -> bool)
    requires IsRun(env, states, steps) && n < |states| && SpellsWell(env, isUuid)
    requires AllRead(env, states[n], now, spell, found) && RD.Request(itemIds) && k <= |itemIds|
    ensures AllPossible(RD.Collected(itemIds, k, found, urlAccepted))
    decreases k
  {
    hide IsRun, SpellsWell, AllRead, RD.Collect, AllPossible;
    if k == 0 {
      NonePossible();
    } else {
      CodesArePossible(env, states, steps, n, now, spell, isUuid, itemIds, k - 1, found, urlAccepted);
      if itemIds[k - 1] in found {
        CodeIsPossible(env, states, steps, n, now, spell, isUuid, itemIds, k - 1, found, urlAccepted);
      }
      OneMoreCode(RD.Collected(itemIds, k - 1, found, urlAccepted), itemIds[k - 1], found, urlAccepted);
    }
  }

  /** An item that gets into a draft is published, and publishable in the rows that were read. */
  lemma DraftedArePublishable(env: Env, db: Db, now: int, spell: CO.Digest -> string, itemIds: seq<string>, k: nat,
                              found: map<string, RD.Candidate>, urlAccepted: string -> bool) returns (id: Id)
    requires AllRead(env, db, now, spell, found) && k < |itemIds|
    requires RD.AllDraftable(itemIds, |itemIds|, found, urlAccepted)
    ensures itemIds[k] == env.idText(id) && HasModel(db, id)
    ensures SM.IsPublished(db.items[id].state) && Publishable(env, db, id, now)
  {
    hide Publishable;
    assert itemIds[k] in found && RD.Draftable(found[itemIds[k]], urlAccepted);
    var row: Stored;
    id, row :| itemIds[k] == env.idText(id) && ReadAs(env, db, id, now, row, spell, found[itemIds[k]]);
  }
}
