/**
 The chain of published versions as the operator export checks it: on the JSON
 that comes back from the database, which keeps no key order.
 */
module PassportHistory {
  import opened Prelude
  import opened CanonicalJson
  import CO = CanonicalOrder
  import opened PassportValues
  import opened PassportTables
  import opened PassportSteps
  import opened PassportInvariant
  import opened PassportRuns

  const MAX_VERSIONS := 256
  const MAX_EVIDENCE := 5000
  const MAX_BYTES := 8 * 1024 * 1024

  /** A row of `PassportVersion` as the database returns it. */
  datatype Stored = Stored(
    versionNo: int, schemaVersion: string, ruleSet: string, json: Json, sha256: CO.Digest, previous: Option<CO.Digest>,
    published: bool, at: Option<int>)

  /** The item's ids as text, and what counts as the text of a UUID. */
  datatype Subject = Subject(item: string, model: string, publicId: string, isUuid: string -> bool)

  // ---- reading properties ----

  /** `value?.key` */
  function Get(v: Option<CO.Value>, key: string): Option<CO.Value> {
    if v.Some? && v.value.VObj? && key in v.value.fields then Some(v.value.fields[key]) else None
  }

  predicate IsText(v: Option<CO.Value>, s: string) {
    v == Some(CO.VStr(s))
  }

  predicate IsList(v: Option<CO.Value>) {
    v.Some? && v.value.VArr?
  }

  /** A value's evidence ids are a list of UUIDs. */
  predicate EvidenceListed(v: CO.Value, isUuid: string -> bool) {
    var ids := Get(Some(v), "evidenceIds");
    IsList(ids) && forall i :: 0 <= i < |ids.value.elems| ==> ids.value.elems[i].VStr? && isUuid(ids.value.elems[i].s)
  }

  predicate BodyOk(doc: CO.Value, row: Stored, subject: Subject) {
    var top := Some(doc);
    && IsText(Get(top, "schema"), row.schemaVersion) && IsText(Get(top, "ruleSetVersion"), row.ruleSet)
    && IsText(Get(Get(top, "battery"), "id"), subject.item)
    && IsText(Get(Get(top, "battery"), "modelId"), subject.model)
    && IsText(Get(Get(top, "battery"), "publicId"), subject.publicId)
    && IsList(Get(top, "values"))
  }

  predicate ValuesOk(doc: CO.Value, isUuid: string -> bool) {
    var values := Get(Some(doc), "values");
    IsList(values) && forall i :: 0 <= i < |values.value.elems| ==> EvidenceListed(values.value.elems[i], isUuid)
  }

  /** What the loop demands of the row at `k`, its predecessor's hash included. */
  predicate RowOk(rows: seq<Stored>, k: nat, subject: Subject)
    requires k < |rows|
  {
    var row := rows[k];
    && row.versionNo == k + 1
    && row.previous == (if k == 0 then None else Some(rows[k - 1].sha256))
    && row.published && row.at.Some?
    && CO.HashJson(row.json) == row.sha256
    && BodyOk(CO.Meaning(row.json), row, subject)
    && ValuesOk(CO.Meaning(row.json), subject.isUuid)
  }

  function IdsIn(v: CO.Value): set<string> {
    var ids := Get(Some(v), "evidenceIds");
    if IsList(ids) then set e | e in ids.value.elems && e.VStr? :: e.s else {}
  }

  function IdsOfDocument(doc: CO.Value): set<string> {
    var values := Get(Some(doc), "values");
    if IsList(values) then set v, e | v in values.value.elems && e in IdsIn(v) :: e else {}
  }

  /** Every evidence id the first `n` versions name. */
  function IdsOfRows(rows: seq<Stored>, n: nat): set<string>
    requires n <= |rows|
  {
    set k, e | 0 <= k < n && e in IdsOfDocument(CO.Meaning(rows[k].json)) :: e
  }

  // ---- what the check stands for ----

  /** The value is an object with this property. */
  ghost predicate Says(v: CO.Value, key: string, w: CO.Value) {
    v.VObj? && key in v.fields && v.fields[key] == w
  }

  ghost predicate ListsUuids(v: CO.Value, isUuid: string -> bool) {
    exists ids: seq<CO.Value> :: Says(v, "evidenceIds", CO.VArr(ids))
                  && forall i :: 0 <= i < |ids| ==> ids[i].VStr? && isUuid(ids[i].s)
  }

  /** The document names the row's schema and rule set and the item, and lists its values with their evidence. */
  ghost predicate SaysRowOf(doc: CO.Value, row: Stored, subject: Subject) {
    && Says(doc, "schema", CO.VStr(row.schemaVersion)) && Says(doc, "ruleSetVersion", CO.VStr(row.ruleSet))
    && (exists b :: Says(doc, "battery", b) && Says(b, "id", CO.VStr(subject.item))
                    && Says(b, "modelId", CO.VStr(subject.model)) && Says(b, "publicId", CO.VStr(subject.publicId)))
    && (exists list :: Says(doc, "values", CO.VArr(list))
                       && forall i :: 0 <= i < |list| ==> ListsUuids(list[i], subject.isUuid))
  }

  /**
   The row is published under its place's number, its hash is its document's, and it names the hash
   of the row before.
   */
  ghost predicate Unbroken(rows: seq<Stored>, k: nat, subject: Subject)
    requires k < |rows|
  {
    && rows[k].versionNo == k + 1 && rows[k].published && rows[k].at != None
    && (k == 0 ==> rows[k].previous == None) && (k > 0 ==> rows[k].previous == Some(rows[k - 1].sha256))
    && rows[k].sha256 == CO.Sha256(CO.Canonicalize(rows[k].json))
    && SaysRowOf(CO.Meaning(rows[k].json), rows[k], subject)
  }

  lemma RowOkMeansUnbroken(rows: seq<Stored>, k: nat, subject: Subject)
    requires k < |rows|
    ensures RowOk(rows, k, subject) <==> Unbroken(rows, k, subject)
  {
    hide ListsUuids, EvidenceListed, CO.Canonicalize, CO.Meaning;
    forall v ensures EvidenceListed(v, subject.isUuid) <==> ListsUuids(v, subject.isUuid) {
      ListedMeansUuids(v, subject.isUuid);
    }
    BodyMeans(CO.Meaning(rows[k].json), rows[k], subject);
  }

  lemma ListedMeansUuids(v: CO.Value, isUuid: string -> bool)
    ensures EvidenceListed(v, isUuid) <==> ListsUuids(v, isUuid)
  {
    if EvidenceListed(v, isUuid) {
      assert Says(v, "evidenceIds", CO.VArr(v.fields["evidenceIds"].elems));
    }
  }

  lemma BodyMeans(doc: CO.Value, row: Stored, subject: Subject)
    ensures BodyOk(doc, row, subject) && ValuesOk(doc, subject.isUuid) <==> SaysRowOf(doc, row, subject)
  {
    hide ListsUuids, EvidenceListed;
    forall v ensures EvidenceListed(v, subject.isUuid) <==> ListsUuids(v, subject.isUuid) {
      ListedMeansUuids(v, subject.isUuid);
    }
    if BodyOk(doc, row, subject) && ValuesOk(doc, subject.isUuid) {
      assert Says(doc, "battery", doc.fields["battery"]);
      assert Says(doc, "values", CO.VArr(doc.fields["values"].elems));
    }
  }

  /** Some value of the row's document lists the id as evidence. */
  ghost predicate Names(row: Stored, e: string) {
    exists list, v, ids :: Says(CO.Meaning(row.json), "values", CO.VArr(list)) && v in list
                           && Says(v, "evidenceIds", CO.VArr(ids)) && CO.VStr(e) in ids
  }

  lemma IdsMeanNamed(rows: seq<Stored>, n: nat, e: string)
    requires n <= |rows|
    ensures e in IdsOfRows(rows, n) <==> exists k :: 0 <= k < n && Names(rows[k], e)
  {
    hide CO.Meaning;
    forall k | 0 <= k < n ensures e in IdsOfDocument(CO.Meaning(rows[k].json)) <==> Names(rows[k], e) {
      IdsOfOneNamed(rows[k], e);
    }
  }

  lemma IdsOfOneNamed(row: Stored, e: string)
    ensures e in IdsOfDocument(CO.Meaning(row.json)) <==> Names(row, e)
  {
    hide CO.Meaning;
    var doc := CO.Meaning(row.json);
    if e in IdsOfDocument(doc) {
      var list := doc.fields["values"].elems;
      var v :| v in list && e in IdsIn(v);
      assert Says(doc, "values", CO.VArr(list)) && Says(v, "evidenceIds", CO.VArr(v.fields["evidenceIds"].elems));
    }
    if list, v, ids :| Says(doc, "values", CO.VArr(list)) && v in list
                       && Says(v, "evidenceIds", CO.VArr(ids)) && CO.VStr(e) in ids {
      assert e in IdsIn(v);
    }
  }

  // ---- the verifier loop ----

  method CollectIds(v: CO.Value, isUuid: string -> bool, evidence: set<string>) returns (ok: bool, after: set<string>)
    ensures ok <==> EvidenceListed(v, isUuid)
    ensures ok ==> after == evidence + IdsIn(v)
  {
    after := evidence;
    var ids := Get(Some(v), "evidenceIds");
    if !IsList(ids) {
      return false, after;
    }
    var list := ids.value.elems;
    for i := 0 to |list|
      invariant forall j :: 0 <= j < i ==> list[j].VStr? && isUuid(list[j].s)
      invariant after == evidence + set e | e in list[..i] && e.VStr? :: e.s
    {
      if !list[i].VStr? || !isUuid(list[i].s) {
        return false, after;
      }
      assert list[..i + 1] == list[..i] + [list[i]];
      after := after + {list[i].s};
    }
    assert list[..|list|] == list;
    ok := true;
  }

  method CollectDocument(doc: CO.Value, isUuid: string -> bool, evidence: set<string>)
    returns (ok: bool, after: set<string>)
    requires IsList(Get(Some(doc), "values"))
    ensures ok <==> ValuesOk(doc, isUuid)
    ensures ok ==> after == evidence + IdsOfDocument(doc)
  {
    hide EvidenceListed, IdsIn;
    after := evidence;
    var list := Get(Some(doc), "values").value.elems;
    for i := 0 to |list|
      invariant forall j :: 0 <= j < i ==> EvidenceListed(list[j], isUuid)
      invariant after == evidence + set v, e | v in list[..i] && e in IdsIn(v) :: e
    {
      assert list[..i + 1] == list[..i] + [list[i]];
      var each;
      each, after := CollectIds(list[i], isUuid, after);
      if !each {
        return false, after;
      }
    }
    assert list[..|list|] == list;
    ok := true;
  }

  /** The history check: every row in order, with the previous hash carried along. */
  method VerifyHistory(rows: seq<Stored>, subject: Subject) returns (ok: bool, evidence: set<string>)
    ensures ok <==> forall k :: 0 <= k < |rows| ==> RowOk(rows, k, subject)
    ensures ok ==> evidence == IdsOfRows(rows, |rows|)
    ensures ok <==> forall k :: 0 <= k < |rows| ==> Unbroken(rows, k, subject)
    ensures ok ==> forall e :: e in evidence <==> exists k :: 0 <= k < |rows| && Names(rows[k], e)
  {
    hide Unbroken, Names;
    forall k | 0 <= k < |rows| ensures RowOk(rows, k, subject) <==> Unbroken(rows, k, subject) {
      RowOkMeansUnbroken(rows, k, subject);
    }
    forall e ensures e in IdsOfRows(rows, |rows|) <==> exists k :: 0 <= k < |rows| && Names(rows[k], e) {
      IdsMeanNamed(rows, |rows|, e);
    }
    evidence := {};
    var previous: Option<CO.Digest> := None;
    for k := 0 to |rows|
      invariant previous == if k == 0 then None else Some(rows[k - 1].sha256)
      invariant forall j :: 0 <= j < k ==> RowOk(rows, j, subject)
      invariant evidence == IdsOfRows(rows, k)
    {
      var row := rows[k];
      var canonical := CO.Meaning(row.json);
      if row.versionNo != k + 1 || row.previous != previous || !row.published || row.at.None?
         || CO.HashJson(row.json) != row.sha256 || !BodyOk(canonical, row, subject) {
        assert !RowOk(rows, k, subject);
        return false, evidence;
      }
      var each;
      each, evidence := CollectDocument(canonical, subject.isUuid, evidence);
      if !each {
        assert !RowOk(rows, k, subject);
        return false, evidence;
      }
      previous := Some(row.sha256);
    }
    ok := true;
  }

  datatype Export = PublicationRequired | LimitExceeded | IntegrityFailed | Exported(evidence: set<string>)

  /** The part of `export` before the envelope is built; `bytes` is the stored size of all versions. */
  method CheckExport(rows: seq<Stored>, bytes: nat, subject: Subject) returns (result: Export)
    ensures result.PublicationRequired? <==> rows == []
    ensures result.Exported? <==>
              && 1 <= |rows| <= 256 && bytes <= 8388608
              && (forall k :: 0 <= k < |rows| ==> Unbroken(rows, k, subject))
              && |IdsOfRows(rows, |rows|)| <= 5000
    ensures result.Exported? ==> forall e :: e in result.evidence <==> exists k :: 0 <= k < |rows| && Names(rows[k], e)
    ensures result.Exported? ==> result.evidence == IdsOfRows(rows, |rows|)
    ensures result.IntegrityFailed? <==>
              && 1 <= |rows| <= 256 && bytes <= 8388608
              && exists k :: 0 <= k < |rows| && !Unbroken(rows, k, subject)
    ensures result.LimitExceeded? <==>
              && rows != []
              && (|| |rows| > 256 || bytes > 8388608
                  || (&& (forall k :: 0 <= k < |rows| ==> Unbroken(rows, k, subject))
                      && |IdsOfRows(rows, |rows|)| > 5000))
  {
    hide Unbroken, Names;
    if |rows| == 0 {
      return PublicationRequired;
    }
    if |rows| > MAX_VERSIONS || bytes > MAX_BYTES {
      return LimitExceeded;
    }
    var ok, evidence := VerifyHistory(rows, subject);
    if !ok {
      return IntegrityFailed;
    }
    if |evidence| > MAX_EVIDENCE {
      return LimitExceeded;
    }
    result := Exported(evidence);
  }

  // ---- documents are well-formed JSON ----

  /** Field numbers are spelled as JSON numbers, and ids as UUIDs. */
  ghost predicate SpellsWell(env: Env, isUuid: string -> bool) {
    && (forall n: int :: IsNumber(env.rules.idText(n)))
    && (forall id: Id :: isUuid(env.idText(id)))
  }

  ghost predicate DocOk(doc: Document) {
    forall i :: 0 <= i < |doc.values| ==> WellFormed(doc.values[i].content.json)
  }

  lemma IdsJsonOk(env: Env, ids: seq<Id>)
    ensures WellFormed(Arr(IdsJson(env, ids)))
  {
    var list := IdsJson(env, ids);
    forall i | 0 <= i < |list| ensures WellFormed(list[i]) {
    }
  }

  /** What a value's members hold: text or null, but for its number, its content and its evidence ids. */
  lemma MemberOfValue(env: Env, v: DocValue, i: nat)
    requires i < |ValueJson(env, v).members|
    ensures var json := ValueJson(env, v).members[i].value;
            || json.Str? || json == Null || json == Num(env.rules.idText(v.content.field)) || json == v.content.json
            || json == Arr(IdsJson(env, v.evidenceIds))
  {
  }

  /** Every document value is an object with distinct keys and well-formed members. */
  lemma ValueJsonOk(env: Env, v: DocValue, isUuid: string -> bool)
    requires SpellsWell(env, isUuid) && WellFormed(v.content.json)
    ensures WellFormed(ValueJson(env, v))
  {
    hide IsNumber, ValueJson, IdsJson, DistinctKeys;
    var members := MembersOf(env, v);
    ValueKeysDistinct(env, v);
    IdsJsonOk(env, v.evidenceIds);
    forall i | 0 <= i < |members| ensures WellFormed(members[i].value) {
      MemberOfValue(env, v, i);
    }
  }

  function MembersOf(env: Env, v: DocValue): (r: seq<Member>)
    ensures ValueJson(env, v) == Obj(r)
  {
    ValueJson(env, v).members
  }

  lemma ValueJsonLists(env: Env, v: DocValue, isUuid: string -> bool)
    requires SpellsWell(env, isUuid)
    ensures EvidenceListed(CO.Meaning(ValueJson(env, v)), isUuid)
  {
    hide IsNumber, ValueJson, DistinctKeys;
    var members, ids := MembersOf(env, v), IdsJson(env, v.evidenceIds);
    ValueKeysDistinct(env, v);
    CO.MeaningAt(members, Member("evidenceIds", Arr(ids)));
    ElemsAt(ids);
    assert Get(Some(CO.Meaning(ValueJson(env, v))), "evidenceIds") == Some(CO.VArr(CO.ElemsMeaning(ids)));
    forall i | 0 <= i < |ids| ensures CO.ElemsMeaning(ids)[i] == CO.VStr(env.idText(v.evidenceIds[i])) {
    }
  }

  lemma ValueKeysDistinct(env: Env, v: DocValue)
    ensures DistinctKeys(ValueJson(env, v).members)
    ensures Member("evidenceIds", Arr(IdsJson(env, v.evidenceIds))) in ValueJson(env, v).members
  {
    hide IdsJson, StatusText, TierText, SourceText, TextOrNull;
  }

  lemma {:induction false} ElemsAt(elems: seq<Json>)
    ensures |CO.ElemsMeaning(elems)| == |elems|
    ensures forall i :: 0 <= i < |elems| ==> CO.ElemsMeaning(elems)[i] == CO.Meaning(elems[i])
    decreases |elems|
  {
    if elems != [] {
      ElemsAt(elems[1..]);
    }
  }

  /** A battery's keys are distinct, and what they hold is text or null. */
  lemma BatteryMembersOk(env: Env, b: Battery)
    ensures DistinctKeys(BatteryJson(env, b).members)
    ensures forall i :: 0 <= i < |BatteryJson(env, b).members| ==>
              BatteryJson(env, b).members[i].value.Str? || BatteryJson(env, b).members[i].value == Null
  {
    hide CategoryText, LifecycleText;
  }

  lemma TextAt(members: seq<Member>, i: nat, s: string)
    requires i < |members| && DistinctKeys(members) && members[i].value == Str(s)
    ensures IsText(Get(Some(CO.Meaning(Obj(members))), members[i].key), s)
  {
    CO.MeaningAt(members, members[i]);
  }

  lemma FlatIsWellFormed(members: seq<Member>)
    requires DistinctKeys(members)
    requires forall i :: 0 <= i < |members| ==> members[i].value.Str? || members[i].value == Null
    ensures WellFormed(Obj(members))
  {
  }

  lemma BatteryJsonOk(env: Env, b: Battery)
    ensures WellFormed(BatteryJson(env, b))
    ensures var battery := Some(CO.Meaning(BatteryJson(env, b)));
            && IsText(Get(battery, "id"), env.idText(b.id))
            && IsText(Get(battery, "modelId"), env.idText(b.model))
            && IsText(Get(battery, "publicId"), b.publicId)
  {
    hide CO.Meaning, WellFormed, DistinctKeys, CategoryText, LifecycleText, TextOrNull, IsText, Get;
    BatteryMembersOk(env, b);
    var members := BatteryJson(env, b).members;
    FlatIsWellFormed(members);
    TextAt(members, 0, b.publicId);
    TextAt(members, 1, env.idText(b.id));
    TextAt(members, 2, env.idText(b.model));
  }

  lemma ValuesJsonOk(env: Env, values: seq<DocValue>, isUuid: string -> bool)
    requires SpellsWell(env, isUuid) && forall i :: 0 <= i < |values| ==> WellFormed(values[i].content.json)
    ensures WellFormed(Arr(ValuesJson(env, values)))
    ensures forall i :: 0 <= i < |values| ==> EvidenceListed(CO.Meaning(ValuesJson(env, values)[i]), isUuid)
  {
    hide IsNumber;
    forall i | 0 <= i < |values|
      ensures WellFormed(ValuesJson(env, values)[i])
      ensures EvidenceListed(CO.Meaning(ValuesJson(env, values)[i]), isUuid)
    {
      ValueJsonOk(env, values[i], isUuid);
      ValueJsonLists(env, values[i], isUuid);
    }
  }

  lemma DocumentKeysDistinct(env: Env, doc: Document)
    ensures DistinctKeys(DocumentJson(env, doc).members)
  {
  }

  /** The document's JSON is well-formed. */
  lemma DocumentJsonOk(env: Env, doc: Document, isUuid: string -> bool)
    requires SpellsWell(env, isUuid) && DocOk(doc)
    ensures WellFormed(DocumentJson(env, doc))
  {
    hide IsNumber;
    DocumentKeysDistinct(env, doc);
    BatteryJsonOk(env, doc.battery);
    ValuesJsonOk(env, doc.values, isUuid);
    var members := DocumentJson(env, doc).members;
    forall i | 0 <= i < |members| ensures WellFormed(members[i].value) {
    }
  }

  /** Its properties are where the verifier looks for them. */
  lemma DocumentFields(env: Env, doc: Document)
    ensures var top := Some(CO.Meaning(DocumentJson(env, doc)));
            && IsText(Get(top, "schema"), doc.schema) && IsText(Get(top, "ruleSetVersion"), doc.ruleSet)
            && Get(top, "battery") == Some(CO.Meaning(BatteryJson(env, doc.battery)))
            && Get(top, "values") == Some(CO.VArr(CO.ElemsMeaning(ValuesJson(env, doc.values))))
  {
    hide BatteryJson, ValuesJson;
    var members := DocumentJson(env, doc).members;
    DocumentKeysDistinct(env, doc);
    CO.MeaningAt(members, members[0]);
    CO.MeaningAt(members, members[1]);
    CO.MeaningAt(members, members[3]);
    CO.MeaningAt(members, members[4]);
  }

  // ---- every reachable history is accepted ----

  /** What the database returns for a version: its columns, and JSON equal up to key order. */
  ghost predicate ReadBack(env: Env, v: Version, row: Stored) {
    && row.versionNo == v.versionNo && row.schemaVersion == v.schemaVersion && row.ruleSet == v.ruleSet
    && row.sha256 == v.sha256 && row.previous == v.previous && row.published == v.published && row.at == v.at
    && WellFormed(row.json) && CO.Meaning(row.json) == CO.Meaning(DocumentJson(env, v.document))
  }

  lemma DocumentPasses(env: Env, doc: Document, row: Stored, subject: Subject)
    requires SpellsWell(env, subject.isUuid) && DocOk(doc)
    requires row.schemaVersion == doc.schema && row.ruleSet == doc.ruleSet
    requires subject.item == env.idText(doc.battery.id) && subject.model == env.idText(doc.battery.model)
    requires subject.publicId == doc.battery.publicId
    ensures BodyOk(CO.Meaning(DocumentJson(env, doc)), row, subject)
            && ValuesOk(CO.Meaning(DocumentJson(env, doc)), subject.isUuid)
  {
    DocumentFields(env, doc);
    BatteryJsonOk(env, doc.battery);
    ValuesJsonOk(env, doc.values, subject.isUuid);
    ElemsAt(ValuesJson(env, doc.values));
    hide DocumentJson, BatteryJson;
    forall i | 0 <= i < |doc.values| ensures EvidenceListed(CO.ElemsMeaning(ValuesJson(env, doc.values))[i],
                                                            subject.isUuid) {
    }
  }

  /** The hash of what was read back is the stored hash. */
  lemma ReadBackHash(env: Env, v: Version, row: Stored, isUuid: string -> bool)
    requires SpellsWell(env, isUuid) && DocOk(v.document) && ReadBack(env, v, row)
    requires v.sha256 == CO.HashJson(DocumentJson(env, v.document))
    ensures CO.HashJson(row.json) == row.sha256
  {
    DocumentJsonOk(env, v.document, isUuid);
    CO.CanonicalIffSame(row.json, DocumentJson(env, v.document));
  }

  /** A history built by `publish` passes the verifier. */
  lemma HistoryAccepted(env: Env, id: Id, item: Item, rows: seq<Stored>, isUuid: string -> bool, k: nat)
    requires SpellsWell(env, isUuid) && HistoryInv(env, id, item)
    requires forall j :: 0 <= j < |item.versions| ==> DocOk(item.versions[j].document)
    requires |rows| == |item.versions| && forall j :: 0 <= j < |rows| ==> ReadBack(env, item.versions[j], rows[j])
    requires k < |rows|
    ensures RowOk(rows, k, Subject(env.idText(id), env.idText(item.model), item.publicId, isUuid))
  {
    hide DocumentJson;
    var v := item.versions[k];
    assert VersionInv(env, id, item, k);
    assert ReadBack(env, v, rows[k]) && (k > 0 ==> ReadBack(env, item.versions[k - 1], rows[k - 1]));
    ReadBackHash(env, v, rows[k], isUuid);
    DocumentPasses(env, v.document, rows[k], Subject(env.idText(id), env.idText(item.model), item.publicId, isUuid));
  }

  // ---- only parsed JSON is stored ----

  ghost predicate ValuesParsed(values: Values) {
    forall i :: 0 <= i < |values| ==> WellFormed(values[i].json)
  }

  ghost predicate JsonInv(db: Db) {
    && ValuesParsed(db.table.values)
    && forall r :: r in db.requests ==> SubmissionsParsed(db.requests[r].submissions)
  }

  lemma {:induction false} AcceptedParsed(t: Table, model: Id, submissions: seq<Submission>, now: int)
    requires ValuesParsed(t.values) && forall i :: 0 <= i < |submissions| ==> WellFormed(submissions[i].json)
    ensures ValuesParsed(AcceptAll(t, model, submissions, now).values)
    decreases |submissions|
  {
    hide WellFormed;
    if submissions != [] {
      AcceptedParsed(t, model, submissions[..|submissions| - 1], now);
    }
  }

  lemma StoredParsed(submissions: map<Id, Submission>, body: seq<Posted>)
    requires SubmissionsParsed(submissions) && BodyParsed(body)
    ensures SubmissionsParsed(WithPosted(submissions, body))
  {
    hide WellFormed;
    forall id | id in WithPosted(submissions, body) ensures WellFormed(WithPosted(submissions, body)[id].json) {
      StoredOrigin(submissions, body, id);
    }
  }

  lemma RequestStepKeepsJson(env: Env, db: Db, step: Step)
    requires JsonInv(db) && Enabled(db, step) && (step.StepSubmit? || step.StepAccept?)
    ensures JsonInv(Apply(env, db, step))
  {
    hide WellFormed, CreateValue, ValidateValue, RejectValue, LinkEvidence, RejectEvidence, ChangeEvidence,
        RecordEvent, Ingest;
    hide ReviewApplicability, Validate, Publish, AddModel, AddItem, AddEvidence, AddRequest, OpenPortal,
        FirstProblem, WithPosted;
    hide AcceptAll, Invalidate;
    if step.StepSubmit? && step.request in db.requests {
      StoredParsed(db.requests[step.request].submissions, step.body);
    } else if step.StepAccept? && step.request in db.requests {
      assert SubmissionsParsed(db.requests[step.request].submissions);
      AcceptedParsed(db.table, db.requests[step.request].model,
                     Listed(db.requests[step.request].submissions, step.listed), step.now);
    }
  }

  lemma OtherStepKeepsJson(env: Env, db: Db, step: Step)
    requires JsonInv(db) && Enabled(db, step) && !step.StepSubmit? && !step.StepAccept?
    ensures JsonInv(Apply(env, db, step))
  {
    hide WellFormed, Publishable, NextDocument, WithVersion, Invalidate, Noted, CurrentId, UpiTaken, Submit, Accept;
    hide UsableEvidence, OpenRequest, LockOwner, LockItem, EvidenceMoves, LinkedOwners;
  }

  lemma StepKeepsJson(env: Env, db: Db, step: Step)
    requires JsonInv(db) && Enabled(db, step)
    ensures JsonInv(Apply(env, db, step))
  {
    hide Enabled, Apply, JsonInv;
    if step.StepSubmit? || step.StepAccept? {
      RequestStepKeepsJson(env, db, step);
    } else {
      OtherStepKeepsJson(env, db, step);
    }
  }

  lemma {:induction false} RunJson(env: Env, states: seq<Db>, steps: seq<Step>, n: nat)
    requires IsRun(env, states, steps) && n < |states|
    ensures JsonInv(states[n])
  {
    hide Apply;
    if n > 0 {
      RunJson(env, states, steps, n - 1);
      StepKeepsJson(env, states[n - 1], steps[n - 1]);
    }
  }

  lemma {:induction false} DocValuesParsed(env: Env, values: Values, h: Holder, order: Id -> seq<Id>, n: nat)
    requires ValuesParsed(values)
    ensures forall v :: v in DocValues(env, values, h, order, n) ==> WellFormed(v.content.json)
  {
    hide WellFormed;
    if n > 0 {
      DocValuesParsed(env, values, h, order, n - 1);
    }
  }

  lemma VersionDocumentOk(env: Env, states: seq<Db>, steps: seq<Step>, n: nat, id: Id, k: nat)
    requires IsRun(env, states, steps) && n < |states| && k < |VersionsOf(states[n], id)|
    ensures DocOk(VersionsOf(states[n], id)[k].document)
  {
    hide Apply, WellFormed;
    var m := EveryVersionWasSupported(env, states, steps, n, id, k);
    RunJson(env, states, steps, m);
    DocValuesParsed(env, states[m].table.values, HolderOf(states[m], id), steps[m].order, FIELDS);
  }

  /**
   In every run, whatever key order the database returns, the verifier accepts
   the item's history: numbers 1..n, each previous hash the predecessor's, each
   stored hash the hash of the JSON read back.
   */
  lemma EveryHistoryIsAccepted(env: Env, states: seq<Db>, steps: seq<Step>, n: nat, id: Id, rows: seq<Stored>,
                               isUuid: string -> bool, k: nat)
    requires IsRun(env, states, steps) && n < |states| && id in states[n].items && SpellsWell(env, isUuid)
    requires var versions := states[n].items[id].versions;
             |rows| == |versions| && forall j :: 0 <= j < |rows| ==> ReadBack(env, versions[j], rows[j])
    requires k < |rows|
    ensures var item := states[n].items[id];
            RowOk(rows, k, Subject(env.idText(id), env.idText(item.model), item.publicId, isUuid))
  {
    hide Apply;
    var item := states[n].items[id];
    RunInv(env, states, steps, n);
    assert ItemInv(env, id, item);
    forall j | 0 <= j < |item.versions| ensures DocOk(item.versions[j].document) {
      VersionDocumentOk(env, states, steps, n, id, j);
    }
    HistoryAccepted(env, id, item, rows, isUuid, k);
  }

  /** Exactly one snapshot of a published item is active, and it is the projection of the latest version. */
  lemma OneActiveSnapshot(env: Env, states: seq<Db>, steps: seq<Step>, n: nat, id: Id, k: nat)
    requires IsRun(env, states, steps) && n < |states| && id in states[n].items
    requires k < |states[n].items[id].snapshots|
    ensures var item := states[n].items[id];
            && |item.snapshots| == |item.versions|
            && (item.snapshots[k].active <==> k == |item.snapshots| - 1)
            && item.snapshots[k].content == Project(env, item.versions[k].document)
            && item.snapshots[k].sha256 == CO.HashJson(PublicJson(env, item.snapshots[k].content))
  {
    hide Apply;
    RunInv(env, states, steps, n);
    assert ItemInv(env, id, states[n].items[id]);
  }

  /** The rows carry equal documents, up to key order. */
  predicate SameDocument(a: Stored, b: Stored) {
    CO.Meaning(a.json) == CO.Meaning(b.json)
  }

  /** Of two accepted rows, a hash says exactly what its own document says, and nothing about the rows before. */
  lemma HashSaysDocument(a: seq<Stored>, b: seq<Stored>, i: nat, j: nat, one: Subject, other: Subject)
    requires i < |a| && j < |b| && RowOk(a, i, one) && RowOk(b, j, other)
    requires WellFormed(a[i].json) && WellFormed(b[j].json)
    ensures a[i].sha256 == b[j].sha256 <==> SameDocument(a[i], b[j])
  {
    CO.CanonicalIffSame(a[i].json, b[j].json);
  }

  /**
   Two accepted histories are the same exactly when they are equally long and all hashes agree; the
   newest is not enough.
   */
  lemma AllHashesSayHistory(a: seq<Stored>, b: seq<Stored>, one: Subject, other: Subject)
    requires forall k :: 0 <= k < |a| ==> RowOk(a, k, one) && WellFormed(a[k].json)
    requires forall k :: 0 <= k < |b| ==> RowOk(b, k, other) && WellFormed(b[k].json)
    ensures (|a| == |b| && forall k :: 0 <= k < |a| ==> a[k].sha256 == b[k].sha256) <==>
            (|a| == |b| && forall k :: 0 <= k < |a| ==> SameDocument(a[k], b[k]))
  {
    hide RowOk, WellFormed, SameDocument;
    if |a| == |b| {
      forall k | 0 <= k < |a| ensures a[k].sha256 == b[k].sha256 <==> SameDocument(a[k], b[k]) {
        HashSaysDocument(a, b, k, k, one, other);
      }
    }
  }

  /** Equal payload hashes mean equal payloads up to key order. */
  lemma PayloadHashDetermines(a: Json, b: Json)
    requires WellFormed(a) && WellFormed(b)
    ensures CO.HashJson(a) == CO.HashJson(b) <==> CO.Meaning(a) == CO.Meaning(b)
  {
    CO.CanonicalIffSame(a, b);
  }
}
