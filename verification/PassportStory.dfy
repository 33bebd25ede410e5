/**
 A passport published by fifteen endpoint calls, from an empty database: the
 results about published passports are about something. It also shows what
 publishing does not ask for.
 */
module PassportStory {
  import opened Prelude
  import opened Text
  import opened CanonicalJson
  import opened Catalogue
  import opened Readiness
  import opened Applicability
  import opened PassportValues
  import opened PassportTables
  import opened PassportSteps
  import opened PassportRuns
  import SM = StateMachine

  const BRAND := Field(1, "brand", Mandatory, Mandatory, Mandatory, PublicTier)
  const NOTE := Field(2, "note", OptionalIfAvailable, OptionalIfAvailable, OptionalIfAvailable, PublicTier)
  const CYCLES := Field(3, "cycles", ConditionalIfApplicable, ConditionalIfApplicable, ConditionalIfApplicable,
                        AuthorityOnly)

  /** What the story leaves open: deployment, the decision on field 3, the values' JSON, and the time. */
  datatype Story = Story(env: Env, decision: Decision, json: Json, at: string, issued: string, now: int)

  ghost predicate Apt(s: Story) {
    && s.env.rules.fields == [BRAND, NOTE, CYCLES] && s.env.rules.dateOk(s.at)
    && Parses(s.decision) && s.decision.fieldId == 3 && s.decision.applicable
    && WellFormed(s.json) && s.json != Null && s.json != Str("")
  }

  const NO_CONTEXT := Context(None, None, None, [])

  const CLEAN := Evidence(Verified, None, None, true)

  function ReviewOf(s: Story): Context {
    Reviewed(s.env.rules, EV, NO_CONTEXT, [s.decision], "operator", s.at)
  }

  function ListedLinks(v: Id): seq<Id> {
    if v < 2 then [0] else []
  }

  function StepAt(s: Story, n: nat): Step
    requires n < 15
  {
    if n == 0 then StepAddModel(0, "model", EV, NO_CONTEXT)
    else if n == 1 then StepReview(0, [s.decision], "operator", s.at)
    else if n == 2 then StepAddItem(0, 0, "public", "serial", None, None, None)
    else if n == 3 then StepAddEvidence(0)
    else if n == 4 then StepChangeEvidence(0, CLEAN.(status := Uploaded, scanned := false))
    else if n == 5 then StepChangeEvidence(0, CLEAN)
    else if n == 6 then StepCreate(OfModel(0), 1, s.json, None, Operator, s.now)
    else if n == 7 then StepCreate(OfItem(0), 3, s.json, None, Operator, s.now)
    else if n == 8 then StepCreate(OfItem(0), 2, s.json, None, Operator, s.now)
    else if n == 9 then StepLink(0, 0)
    else if n == 10 then StepLink(0, 1)
    else if n == 11 then StepConfirm(0, s.now)
    else if n == 12 then StepConfirm(1, s.now)
    else if n == 13 then StepValidate(0, s.now)
    else StepPublish(0, s.now, s.issued, "rules", ListedLinks)
  }

  // ---- the rows after the first n steps ----

  function ModelsAt(s: Story, n: nat): map<Id, Model> {
    if n == 0 then map[] else map[0 := Model("model", EV, if n == 1 then NO_CONTEXT else ReviewOf(s))]
  }

  function ItemsAt(n: nat): map<Id, Item> {
    if n <= 2 then map[]
    else
      var state := if n <= 13 then SM.Draft else SM.Ready;
      map[0 := Item(0, "public", "serial", None, None, None, Original, state, [], [], [], [])]
  }

  function EvidenceAt(n: nat): map<Id, Evidence> {
    if n <= 3 then map[]
    else if n == 4 then map[0 := CLEAN.(status := PendingUpload, scanned := false)]
    else if n == 5 then map[0 := CLEAN.(status := Uploaded, scanned := false)]
    else map[0 := CLEAN]
  }

  function RowAt(s: Story, k: nat, n: nat): Value
    requires k < 3
  {
    var status := if n <= 11 + k || k == 2 then Unvalidated else Validated;
    if k == 0 then Value(OfModel(0), 1, s.json, None, Operator, status, None, None)
    else if k == 1 then Value(OfItem(0), 3, s.json, None, Operator, status, None, None)
    else Value(OfItem(0), 2, s.json, None, Operator, Unvalidated, None, None)
  }

  function ValuesAt(s: Story, n: nat): Values {
    if n <= 6 then []
    else if n == 7 then [RowAt(s, 0, n)]
    else if n == 8 then [RowAt(s, 0, n), RowAt(s, 1, n)]
    else [RowAt(s, 0, n), RowAt(s, 1, n), RowAt(s, 2, n)]
  }

  function LinksAt(n: nat): set<Link> {
    if n <= 9 then {} else if n == 10 then {Link(0, 0)} else {Link(0, 0), Link(0, 1)}
  }

  function StateAt(s: Story, n: nat): Db {
    Db(ModelsAt(s, n), ItemsAt(n), Table(ValuesAt(s, n), LinksAt(n)), EvidenceAt(n), map[])
  }

  ghost predicate Leads(env: Env, db: Db, step: Step, after: Db) {
    Enabled(db, step) && Apply(env, db, step) == after
  }

  lemma OneConditional(env: Env)
    requires env.rules.fields == [BRAND, NOTE, CYCLES]
    ensures ConditionalIds(env.rules.fields, EV) == [3]
  {
    var fields := env.rules.fields;
    assert fields[..2] == [BRAND, NOTE];
    assert fields[..2][..1] == [BRAND];
    assert ConditionalIds([BRAND], EV) == [] && ConditionalIds([BRAND, NOTE], EV) == [];
  }

  lemma ReviewIsComplete(s: Story)
    requires Apt(s)
    ensures Complete(s.env.rules, EV, ReviewOf(s)) && ApplicableSet(ReviewOf(s)) == {3}
  {
    OneConditional(s.env);
    assert Decided([s.decision], 3) by {
      assert [s.decision][0].fieldId == 3;
    }
    assert NotBlank("operator") by {
      assert "operator"[0] == 'o';
    }
    FreshReviewComplete(s.env.rules, EV, NO_CONTEXT, [s.decision], "operator", s.at);
    assert ApplicableIds([s.decision]) == [3] by {
      assert [s.decision][..0] == [];
    }
    assert SortInts([3]) == [3] by {
      assert [3][1..] == [];
    }
    assert ReviewOf(s).requiredIds.value == [IntegerId(3)];
    hide Complete, ConditionalIds, Parses;
    forall id ensures id in ApplicableSet(ReviewOf(s)) <==> id == 3 {
      assert IntegerId(id) in ReviewOf(s).requiredIds.value <==> id == 3;
    }
  }

  lemma ModelIsReviewed(s: Story, n: nat)
    requires Apt(s) && n < 2
    ensures Leads(s.env, StateAt(s, n), StepAt(s, n), StateAt(s, n + 1))
  {
    hide Complete, Reviewed, Parses, CreateValue, ValidateValue, RejectValue, Accept, Publish, Validate, RecordEvent,
        Submit;
    ReviewIsComplete(s);
    if n == 1 {
      assert Invalidate(map[], {OfModel(0)}) == map[];
    }
  }

  lemma RowsAreAdded(s: Story, n: nat)
    requires 2 <= n < 6
    ensures Leads(s.env, StateAt(s, n), StepAt(s, n), StateAt(s, n + 1))
  {
    hide Complete, Reviewed, Publishable, Invalidate, CreateValue, ValidateValue, RejectValue, Accept, Publish,
        Validate;
    hide RecordEvent, Submit, ReviewApplicability, LinkEvidence, RejectEvidence;
    if n == 2 {
      assert !UpiTaken(StateAt(s, n), 0, "");
    }
  }

  lemma DraftStays(s: Story, n: nat, owner: Owner)
    requires 3 <= n <= 13
    ensures Invalidate(ItemsAt(n), {owner}) == ItemsAt(n)
  {
  }

  lemma ValueIsCreated(s: Story, n: nat)
    requires Apt(s) && 6 <= n <= 8
    ensures Leads(s.env, StateAt(s, n), StepAt(s, n), StateAt(s, n + 1))
  {
    hide Complete, Reviewed, Invalidate, RejectValue, Accept, Publish, Validate, RecordEvent, Submit,
        ReviewApplicability;
    hide RejectEvidence, ChangeEvidence, AddModel, AddItem, AddEvidence, AddRequest, Ingest, OpenPortal, ValidateValue;
    hide LinkEvidence, Parses;
    DraftStays(s, n, OfModel(0));
    DraftStays(s, n, OfItem(0));
  }

  lemma EvidenceIsLinked(s: Story, n: nat)
    requires 9 <= n <= 10
    ensures Leads(s.env, StateAt(s, n), StepAt(s, n), StateAt(s, n + 1))
  {
    hide Complete, Reviewed, Invalidate, RejectValue, Accept, Publish, Validate, RecordEvent, Submit,
        ReviewApplicability;
    hide RejectEvidence, ChangeEvidence, AddModel, AddItem, AddEvidence, AddRequest, Ingest, OpenPortal, ValidateValue;
    hide CreateValue;
    DraftStays(s, n, OfModel(0));
    DraftStays(s, n, OfItem(0));
  }

  lemma EvidenceIsUsable(s: Story, n: nat, k: nat)
    requires 11 <= n && k < 2
    ensures 0 in UsableEvidence(s.env, LinksAt(n), EvidenceAt(n), k, s.now)
  {
    assert Link(0, k) in LinksAt(n) && Usable(s.env, CLEAN, s.now);
  }

  lemma ValueIsConfirmed(s: Story, n: nat)
    requires 11 <= n <= 12
    ensures Leads(s.env, StateAt(s, n), StepAt(s, n), StateAt(s, n + 1))
  {
    hide Complete, Reviewed, Invalidate, RejectValue, Accept, Publish, Validate, RecordEvent, Submit,
        ReviewApplicability;
    hide RejectEvidence, ChangeEvidence, AddModel, AddItem, AddEvidence, AddRequest, Ingest, OpenPortal, CreateValue;
    hide LinkEvidence, UsableEvidence;
    DraftStays(s, n, OfModel(0));
    DraftStays(s, n, OfItem(0));
    EvidenceIsUsable(s, n, n - 11);
  }

  const HOLDER := Holder(0, 0)

  lemma Merged(s: Story, n: nat)
    requires 13 <= n
    ensures MergedId(ValuesAt(s, n), HOLDER, 1) == Some(0) && MergedId(ValuesAt(s, n), HOLDER, 3) == Some(1)
    ensures MergedId(ValuesAt(s, n), HOLDER, 2) == Some(2)
    ensures forall f :: MergedId(ValuesAt(s, n), HOLDER, f).Some? ==> 1 <= f <= 3
  {
    var values := ValuesAt(s, n);
    CurrentIsUnique(values, OfModel(0), 1, 0);
    CurrentIsUnique(values, OfItem(0), 3, 1);
    CurrentIsUnique(values, OfItem(0), 2, 2);
  }

  lemma ProvenInputs(s: Story, n: nat, f: Field)
    requires Apt(s) && 13 <= n && f in s.env.rules.fields && RequiredNow(f, EV, {3})
    ensures Proven(ValueOf(Inputs(s.env, StateAt(s, n), HOLDER, s.now, FIELDS), f.id))
  {
    Merged(s, n);
    InputsByField(s.env, StateAt(s, n), HOLDER, s.now, FIELDS, f.id);
    var k := if f == BRAND then 0 else 1;
    EvidenceIsUsable(s, n, k);
  }

  lemma IsPublishable(s: Story, n: nat)
    requires Apt(s) && 13 <= n
    ensures HasModel(StateAt(s, n), 0) && Publishable(s.env, StateAt(s, n), 0, s.now)
  {
    hide Complete, Reviewed, Inputs, MergedId, Missing, Unproven, Parses;
    ReviewIsComplete(s);
    Merged(s, n);
    var inputs := Inputs(s.env, StateAt(s, n), HOLDER, s.now, FIELDS);
    forall f | f in s.env.rules.fields && RequiredNow(f, EV, {3}) ensures Proven(ValueOf(inputs, f.id)) {
      ProvenInputs(s, n, f);
    }
    ReadyMeansProven(s.env.rules.fields, EV, inputs, {3});
  }

  lemma RowsAreDone(s: Story)
    ensures StateAt(s, 14) == StateAt(s, 13).(items := ItemsAt(14))
  {
  }

  lemma PassportIsReady(s: Story)
    requires Apt(s)
    ensures Leads(s.env, StateAt(s, 13), StepAt(s, 13), StateAt(s, 14))
  {
    hide Publishable, Complete, Reviewed, Parses, ValuesAt, CreateValue, ValidateValue, RejectValue, Accept, Publish;
    hide RecordEvent, Submit, ReviewApplicability, RejectEvidence, ChangeEvidence, AddModel, AddItem, AddEvidence,
        LinkEvidence;
    hide AddRequest, Ingest, OpenPortal;
    IsPublishable(s, 13);
    RowsAreDone(s);
  }

  lemma EachStepLeads(s: Story, n: nat)
    requires Apt(s) && n < 14
    ensures Leads(s.env, StateAt(s, n), StepAt(s, n), StateAt(s, n + 1))
  {
    hide Leads;
    if n < 2 {
      ModelIsReviewed(s, n);
    } else if n < 6 {
      RowsAreAdded(s, n);
    } else if n < 9 {
      ValueIsCreated(s, n);
    } else if n < 11 {
      EvidenceIsLinked(s, n);
    } else if n < 13 {
      ValueIsConfirmed(s, n);
    } else {
      PassportIsReady(s);
    }
  }

  // ---- publishing ----

  /** The entry of a field's merged value. */
  lemma EntryOf(s: Story, doc: Document, field: int, k: nat)
    requires Apt(s) && 1 <= field <= 3 && k < 3 && MergedId(ValuesAt(s, 14), HOLDER, field) == Some(k)
    requires doc.values == DocValues(s.env, ValuesAt(s, 14), HOLDER, ListedLinks, FIELDS)
    ensures DocValue(ContentOf(s.env, RowAt(s, k, 14)), ListedLinks(k)) in doc.values
  {
    DocumentListsFields(s.env, ValuesAt(s, 14), HOLDER, ListedLinks, FIELDS);
    var v :| v in doc.values && v.content.field == field;
    assert IsMerged(s.env, ValuesAt(s, 14), HOLDER, ListedLinks, v);
  }

  /** Every link is listed. */
  lemma LinksAreListed()
    ensures ListsLinks(ListedLinks, LinksAt(14))
  {
    forall v: Id ensures SetOf(ListedLinks(v)) == EvidenceOf(LinksAt(14), v) {
      forall e ensures e in EvidenceOf(LinksAt(14), v) <==> e == 0 && v < 2 {
        assert e in EvidenceOf(LinksAt(14), v) <==> Link(e, v) in LinksAt(14);
      }
    }
  }

  /** The state after the last step. */
  function Out(s: Story): Db {
    StateAt(s, 14).(items := map[0 := WithVersion(s.env, ItemsAt(14)[0], FirstDocument(s), s.now)])
  }

  function FirstDocument(s: Story): Document {
    NextDocument(s.env, StateAt(s, 14), 0, s.issued, "rules", ListedLinks)
  }

  lemma PublishIsDone(s: Story)
    requires Apt(s)
    ensures Publish(s.env, StateAt(s, 14), 0, s.now, s.issued, "rules", ListedLinks) == Done(Out(s))
  {
    hide Publishable, Complete, Reviewed, Parses, ValuesAt, NextDocument, WithVersion, ListedLinks, LinksAt;
    IsPublishable(s, 14);
    assert !UpiTaken(StateAt(s, 14), 0, UpiOf(s.env, ItemsAt(14)[0]));
  }

  lemma PublishSucceeds(s: Story)
    requires Apt(s)
    ensures Enabled(StateAt(s, 14), StepAt(s, 14)) && Apply(s.env, StateAt(s, 14), StepAt(s, 14)) == Out(s)
  {
    hide Complete, Reviewed, Parses, ValuesAt, CreateValue, ValidateValue, RejectValue, Accept, Validate, Publish, Out;
    hide RecordEvent, Submit, ReviewApplicability, RejectEvidence, ChangeEvidence, AddModel, AddItem, AddEvidence,
        LinkEvidence;
    hide AddRequest, Ingest, OpenPortal, ListedLinks, ListsLinks, LinksAt;
    PublishIsDone(s);
    LinksAreListed();
  }

  /** The optional field is there, neither validated nor linked to any evidence. */
  predicate UnprovenNote(doc: Document) {
    exists v :: v in doc.values && v.content.field == NOTE.id && v.content.status == Unvalidated && v.evidenceIds == []
  }

  /** What the published version shows. */
  lemma VersionShows(s: Story, doc: Document)
    requires Apt(s) && doc.values == DocValues(s.env, ValuesAt(s, 14), HOLDER, ListedLinks, FIELDS)
    ensures DocumentSupports(s.env, EvidenceAt(14), doc, 1, s.now)
            && DocumentSupports(s.env, EvidenceAt(14), doc, 3, s.now)
    ensures UnprovenNote(doc)
  {
    Merged(s, 14);
    EntryOf(s, doc, 1, 0);
    EntryOf(s, doc, 3, 1);
    EntryOf(s, doc, 2, 2);
    assert Usable(s.env, CLEAN, s.now);
    var brand, cycles := DocValue(ContentOf(s.env, RowAt(s, 0, 14)), [0]),
        DocValue(ContentOf(s.env, RowAt(s, 1, 14)), [0]);
    assert 0 in brand.evidenceIds && 0 in cycles.evidenceIds;
    assert EntrySupports(s.env, EvidenceAt(14), brand, 1, s.now);
    assert EntrySupports(s.env, EvidenceAt(14), cycles, 3, s.now);
  }

  function StatesTo(s: Story): seq<Db> {
    seq(15, i requires 0 <= i < 15 => StateAt(s, i))
  }

  function StepsTo(s: Story): seq<Step> {
    seq(15, i requires 0 <= i < 15 => StepAt(s, i))
  }

  lemma StoryIsARun(s: Story) returns (states: seq<Db>)
    requires Apt(s)
    ensures IsRun(s.env, states, StepsTo(s)) && |states| == 16 && states[15] == Out(s)
  {
    hide Enabled, Apply, Complete, Reviewed, StepAt, Out;
    PublishSucceeds(s);
    states := StatesTo(s) + [Out(s)];
    forall n | 0 <= n < 15
      ensures Enabled(states[n], StepAt(s, n)) && states[n + 1] == Apply(s.env, states[n], StepAt(s, n))
    {
      if n < 14 {
        EachStepLeads(s, n);
      }
    }
    assert states[0] == EMPTY;
  }

  /**
   Whatever the deployment's settings, the JSON stored and the times: there is a
   run that publishes an item of a model with a mandatory field, a conditional
   field decided applicable and an optional field, the first two validated and
   linked to scanned evidence, the third neither; the version shows all three.
   */
  lemma PublishingHappens(s: Story) returns (states: seq<Db>, steps: seq<Step>)
    requires Apt(s)
    ensures IsRun(s.env, states, steps) && |steps| == 15
    ensures var db := states[15];
            && HasModel(db, 0) && SM.IsPublished(db.items[0].state) && |db.items[0].versions| == 1
            && Required(s.env, ModelOf(db, 0), BRAND) && Required(s.env, ModelOf(db, 0), CYCLES)
            && var doc := db.items[0].versions[0].document;
            && DocumentSupports(s.env, EvidenceAt(14), doc, 1, s.now)
               && DocumentSupports(s.env, EvidenceAt(14), doc, 3, s.now)
            && UnprovenNote(doc)
  {
    hide IsRun, Complete, Reviewed, DocumentSupports, DocValues, ValuesAt, EvidenceAt;
    states := StoryIsARun(s);
    steps := StepsTo(s);
    ReviewIsComplete(s);
    VersionShows(s, states[15].items[0].versions[0].document);
  }

  // ---- what publishing does not ask for ----

  /** The same rows with another status for one value. */
  function Restated(db: Db, id: Id, status: Status): Db
    requires id < |db.table.values|
  {
    db.(table := db.table.(values := db.table.values[id := db.table.values[id].(status := status)]))
  }

  lemma RestatedMerges(values: Values, id: Id, status: Status, h: Holder, field: int)
    requires OneCurrent(values) && id < |values|
    ensures MergedId(values[id := values[id].(status := status)], h, field) == MergedId(values, h, field)
  {
    var after := values[id := values[id].(status := status)];
    SameCurrent(values, after, OfItem(h.item), field);
    SameCurrent(values, after, OfModel(h.model), field);
  }

  lemma CrossFieldsStay(env: Env, db: Db, id: Id, now: int, v: Id)
    requires HasModel(db, id) && OneCurrent(db.table.values) && v < |db.table.values|
    ensures var h, item, after := HolderOf(db, id), db.items[id], Restated(db, v, Unvalidated);
            && CrossFieldsOk(env, after.table.values, h, item.manufactured, now) ==
               CrossFieldsOk(env, db.table.values, h, item.manufactured, now)
            && StatusFieldOk(after.table.values, h, item.lifecycle) == StatusFieldOk(db.table.values, h, item.lifecycle)
  {
    hide MergedId, AtMost;
    forall f ensures MergedId(Restated(db, v, Unvalidated).table.values, HolderOf(db, id), f) ==
                     MergedId(db.table.values, HolderOf(db, id), f) {
      RestatedMerges(db.table.values, v, Unvalidated, HolderOf(db, id), f);
    }
  }

  lemma InputStays(env: Env, db: Db, id: Id, now: int, v: Id, field: int)
    requires HasModel(db, id) && OneCurrent(db.table.values) && v < |db.table.values|
             && db.table.values[v].field != field
    ensures ValueOf(Inputs(env, Restated(db, v, Unvalidated), HolderOf(db, id), now, FIELDS), field) ==
            ValueOf(Inputs(env, db, HolderOf(db, id), now, FIELDS), field)
  {
    RestatedMerges(db.table.values, v, Unvalidated, HolderOf(db, id), field);
    InputsByField(env, db, HolderOf(db, id), now, FIELDS, field);
    InputsByField(env, Restated(db, v, Unvalidated), HolderOf(db, id), now, FIELDS, field);
    hide Inputs, UsableEvidence;
  }

  lemma StillPublishable(env: Env, db: Db, id: Id, now: int, v: Id)
    requires HasModel(db, id) && Publishable(env, db, id, now) && OneCurrent(db.table.values) && v < |db.table.values|
    requires forall f :: Required(env, ModelOf(db, id), f) ==> f.id != db.table.values[v].field
    ensures Publishable(env, Restated(db, v, Unvalidated), id, now)
  {
    hide Inputs, Complete, CrossFieldsOk, StatusFieldOk, Missing, Unproven;
    var h, model, after := HolderOf(db, id), ModelOf(db, id), Restated(db, v, Unvalidated);
    var applicable := ApplicableSet(model.context);
    var inputs := Inputs(env, after, h, now, FIELDS);
    ReadyMeansProven(env.rules.fields, model.category, Inputs(env, db, h, now, FIELDS), applicable);
    forall f | f in env.rules.fields && RequiredNow(f, model.category, applicable)
      ensures Proven(ValueOf(inputs, f.id)) {
      assert Required(env, model, f);
      InputStays(env, db, id, now, v, f.id);
    }
    ReadyMeansProven(env.rules.fields, model.category, inputs, applicable);
    CrossFieldsStay(env, db, id, now, v);
  }

  /**
   A published value need not be validated exactly when no catalogue field of its
   number is required: of a publishable item, the merged value of a field may be
   unvalidated and the item still published if and only if nothing requires it.
   */
  lemma ValidationIsForRequired(env: Env, db: Db, id: Id, now: int, field: int)
    requires HasModel(db, id) && Publishable(env, db, id, now) && OneCurrent(db.table.values)
    requires 1 <= field <= FIELDS && MergedId(db.table.values, HolderOf(db, id), field).Some?
    ensures var v := MergedId(db.table.values, HolderOf(db, id), field).value;
            Publishable(env, Restated(db, v, Unvalidated), id, now) <==>
            forall f :: Required(env, ModelOf(db, id), f) ==> f.id != field
  {
    hide Publishable, Required;
    var v := MergedId(db.table.values, HolderOf(db, id), field).value;
    var after := Restated(db, v, Unvalidated);
    if Publishable(env, after, id, now) {
      forall f | Required(env, ModelOf(db, id), f) ensures f.id != field {
        PublishableIsSupported(env, after, id, now, f);
        RestatedMerges(db.table.values, v, Unvalidated, HolderOf(db, id), field);
      }
    }
    if forall f :: Required(env, ModelOf(db, id), f) ==> f.id != field {
      StillPublishable(env, db, id, now, v);
    }
  }
}
