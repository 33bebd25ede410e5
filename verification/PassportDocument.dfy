/**
 What the published JSON says, key by key, and that its hash says as much: the
 document as stored, and the projections that are shown.
 */
module PassportDocument {
  import opened Prelude
  import opened CanonicalJson
  import CO = CanonicalOrder
  import opened Catalogue
  import opened Applicability
  import opened PassportValues
  import opened PassportTables
  import opened PassportHistory

  type Fields = map<string, CO.Value>

  function Text(s: string): CO.Value { CO.VStr(s) }

  function TextOr(s: Option<string>): CO.Value {
    match s
    case Some(t) => CO.VStr(t)
    case None => CO.VNull
  }

  /** A property that is there only if it has a value. */
  function Optional(key: string, s: Option<string>): Fields {
    match s
    case Some(t) => map[key := CO.VStr(t)]
    case None => map[]
  }

  /** The members' keys and values are these. */
  predicate MemberFits(m: Member, fields: Fields) {
    m.key in fields && fields[m.key] == CO.Meaning(m.value)
  }

  lemma ObjectReads(members: seq<Member>, fields: Fields)
    requires DistinctKeys(members) && forall i :: 0 <= i < |members| ==> MemberFits(members[i], fields)
    requires forall k :: k in fields ==> exists i :: 0 <= i < |members| && members[i].key == k
    ensures CO.Meaning(Obj(members)) == CO.VObj(fields)
  {
    CO.MeaningKeys(members);
    var read := CO.MembersMeaning(members);
    forall k ensures k in read <==> k in fields {
      if k in fields {
        var i :| 0 <= i < |members| && members[i].key == k;
        assert members[i] in members;
      }
    }
    forall k | k in fields ensures read[k] == fields[k] {
      var i :| 0 <= i < |members| && members[i].key == k;
      assert members[i] in members && MemberFits(members[i], fields);
      CO.MeaningAt(members, members[i]);
    }
  }

  // ---- the words the document uses ----

  lemma StatusWords(s: Status)
    ensures StatusText(s) == match s
                             case Unvalidated => "unvalidated" case Submitted => "submitted"
                             case Validated => "validated" case Rejected => "rejected" case Superseded => "superseded"
  {
  }

  lemma SourceWords(s: Source)
    ensures SourceText(s) == match s
                             case Operator => "operator" case Supplier => "supplier"
                             case System => "system" case Integration => "integration"
  {
  }

  lemma TierWords(t: Tier)
    ensures TierText(t) == match t
                           case PublicTier => "public" case AuthorityOnly => "authority_only"
                           case LegitimateInterestModel => "legitimate_interest_model"
                           case LegitimateInterestItem => "legitimate_interest_item"
  {
  }

  lemma LifecycleWords(l: Lifecycle)
    ensures LifecycleText(l) == match l
                                case Original => "original" case Repurposed => "repurposed" case Reused => "reused"
                                case Remanufactured => "remanufactured" case Waste => "waste"
                                case EndOfLife => "recycled"
  {
  }

  lemma CategoryWords(c: Category)
    ensures CategoryText(c) == match c
                               case EV => "EV" case LMT => "LMT" case Industrial => "INDUSTRIAL_GT_2KWH"
  {
  }

  // ---- the stored document ----

  function IdTexts(env: Env, ids: seq<Id>): seq<CO.Value> {
    seq(|ids|, i requires 0 <= i < |ids| => Text(env.idText(ids[i])))
  }

  lemma IdsRead(env: Env, ids: seq<Id>)
    ensures CO.Meaning(Arr(IdsJson(env, ids))) == CO.VArr(IdTexts(env, ids))
  {
    ElemsAt(IdsJson(env, ids));
  }

  /** What one value of the stored document says. */
  function ValueFields(env: Env, v: DocValue): Fields {
    var c := v.content;
    Optional("name", c.name) + Optional("accessTier", if c.tier.Some? then Some(TierText(c.tier.value)) else None) +
    map["fieldId" := CO.VNum(env.rules.idText(c.field)), "value" := CO.Meaning(c.json), "unit" := TextOr(c.unit),
        "validationStatus" := Text(StatusText(c.status)), "sourceKind" := Text(SourceText(c.source)),
        "evidenceIds" := CO.VArr(IdTexts(env, v.evidenceIds))]
  }

  lemma ValueMembersFit(env: Env, v: DocValue, i: nat)
    requires i < |ValueJson(env, v).members|
    ensures MemberFits(ValueJson(env, v).members[i], ValueFields(env, v))
  {
    hide IdsJson, IdTexts, StatusText, TierText, SourceText, TextOrNull, TextOr;
    IdsRead(env, v.evidenceIds);
    UnitReads(v.content.unit);
  }

  lemma ValueKeysThere(env: Env, v: DocValue, k: string)
    requires k in ValueFields(env, v)
    ensures exists i :: 0 <= i < |ValueJson(env, v).members| && ValueJson(env, v).members[i].key == k
  {
    hide IdsJson, StatusText, TierText, SourceText;
    var members, n := ValueJson(env, v).members, |ValueJson(env, v).members|;
    assert members[n - 6].key == "fieldId" && members[n - 5].key == "value" && members[n - 4].key == "unit";
    assert members[n - 3].key == "validationStatus" && members[n - 2].key == "sourceKind";
    assert members[n - 1].key == "evidenceIds";
    assert v.content.name.Some? ==> members[0].key == "name";
    assert v.content.tier.Some? ==> members[n - 7].key == "accessTier";
  }

  lemma ValueReads(env: Env, v: DocValue)
    ensures CO.Meaning(ValueJson(env, v)) == CO.VObj(ValueFields(env, v))
  {
    hide ValueJson, ValueFields, MemberFits;
    ValueKeysDistinct(env, v);
    var members := MembersOf(env, v);
    forall i | 0 <= i < |members| ensures MemberFits(members[i], ValueFields(env, v)) {
      ValueMembersFit(env, v, i);
    }
    forall k | k in ValueFields(env, v) ensures exists i :: 0 <= i < |members| && members[i].key == k {
      ValueKeysThere(env, v, k);
    }
    ObjectReads(members, ValueFields(env, v));
  }

  /** What the battery block of the stored document says. */
  function BatteryFields(env: Env, b: Battery): Fields {
    map["publicId" := Text(b.publicId), "id" := Text(env.idText(b.id)), "modelId" := Text(env.idText(b.model)),
        "modelIdentifier" := Text(b.identifier), "serial" := Text(b.serial), "batch" := TextOr(b.batch),
        "upi" := Text(b.upi), "category" := Text(CategoryText(b.category)),
        "lifecycleStatus" := if b.lifecycle.Some? then Text(LifecycleText(b.lifecycle.value)) else CO.VNull]
  }

  lemma BatteryMembersFit(env: Env, b: Battery)
    ensures DistinctKeys(BatteryJson(env, b).members)
    ensures var members := BatteryJson(env, b).members;
            forall i :: 0 <= i < |members| ==> MemberFits(members[i], BatteryFields(env, b))
  {
    hide CategoryText, LifecycleText;
  }

  lemma BatteryKeysThere(env: Env, b: Battery, k: string)
    requires k in BatteryFields(env, b)
    ensures exists i :: 0 <= i < |BatteryJson(env, b).members| && BatteryJson(env, b).members[i].key == k
  {
    hide CategoryText, LifecycleText, TextOrNull;
    var members := BatteryJson(env, b).members;
    assert members[0].key == "publicId" && members[1].key == "id" && members[2].key == "modelId";
    assert members[3].key == "modelIdentifier" && members[4].key == "serial" && members[5].key == "batch";
    assert members[6].key == "upi" && members[7].key == "category" && members[8].key == "lifecycleStatus";
  }

  lemma BatteryReads(env: Env, b: Battery)
    ensures CO.Meaning(BatteryJson(env, b)) == CO.VObj(BatteryFields(env, b))
  {
    hide BatteryFields, MemberFits, CategoryText, LifecycleText, TextOrNull, DistinctKeys;
    BatteryMembersFit(env, b);
    forall k | k in BatteryFields(env, b)
      ensures exists i :: 0 <= i < |BatteryJson(env, b).members| && BatteryJson(env, b).members[i].key == k
    {
      BatteryKeysThere(env, b, k);
    }
    ObjectReads(BatteryJson(env, b).members, BatteryFields(env, b));
  }

  /** What the stored document says. */
  function DocumentFieldsOf(env: Env, doc: Document): Fields {
    map["schema" := Text(doc.schema), "ruleSetVersion" := Text(doc.ruleSet), "generatedAt" := Text(doc.generatedAt),
        "battery" := CO.VObj(BatteryFields(env, doc.battery)),
        "values" := CO.VArr(seq(|doc.values|,
                                i requires 0 <= i < |doc.values| => CO.VObj(ValueFields(env, doc.values[i]))))]
  }

  lemma ValuesRead(env: Env, values: seq<DocValue>)
    ensures CO.Meaning(Arr(ValuesJson(env, values))) ==
            CO.VArr(seq(|values|, i requires 0 <= i < |values| => CO.VObj(ValueFields(env, values[i]))))
  {
    hide ValueJson, ValueFields;
    var list := ValuesJson(env, values);
    ElemsAt(list);
    forall i | 0 <= i < |list| ensures CO.Meaning(list[i]) == CO.VObj(ValueFields(env, values[i])) {
      ValueReads(env, values[i]);
    }
  }

  /** Reading the stored JSON by key gives the whole document: nothing is lost and nothing else is there. */
  lemma DocumentReads(env: Env, doc: Document)
    ensures CO.Meaning(DocumentJson(env, doc)) == CO.VObj(DocumentFieldsOf(env, doc))
  {
    hide BatteryJson, ValuesJson, BatteryFields, ValueFields, DistinctKeys;
    ValuesRead(env, doc.values);
    BatteryReads(env, doc.battery);
    DocumentKeysDistinct(env, doc);
    var members := DocumentJson(env, doc).members;
    assert members[0].key == "schema" && members[1].key == "ruleSetVersion" && members[2].key == "generatedAt";
    assert members[3].key == "battery" && members[4].key == "values";
    ObjectReads(members, DocumentFieldsOf(env, doc));
  }

  // ---- what the public is shown ----

  function PublicBatteryFields(b: Battery): Fields {
    map["publicId" := Text(b.publicId), "modelIdentifier" := Text(b.identifier), "serial" := Text(b.serial),
        "batch" := TextOr(b.batch), "upi" := Text(b.upi), "category" := Text(CategoryText(b.category))] +
    Optional("lifecycleStatus", if b.lifecycle.Some? then Some(LifecycleText(b.lifecycle.value)) else None)
  }

  lemma PublicBatteryFits(b: Battery)
    ensures DistinctKeys(PublicBatteryMembers(b))
    ensures var members := PublicBatteryMembers(b);
            forall i :: 0 <= i < |members| ==> MemberFits(members[i], PublicBatteryFields(b))
  {
    hide CategoryText, LifecycleText;
  }

  lemma PublicBatteryKeysThere(b: Battery, k: string)
    requires k in PublicBatteryFields(b)
    ensures exists i :: 0 <= i < |PublicBatteryMembers(b)| && PublicBatteryMembers(b)[i].key == k
  {
    hide CategoryText, LifecycleText, TextOrNull;
    var members := PublicBatteryMembers(b);
    assert members[0].key == "publicId" && members[1].key == "modelIdentifier" && members[2].key == "serial";
    assert members[3].key == "batch" && members[4].key == "upi" && members[5].key == "category";
    assert b.lifecycle.Some? ==> members[6].key == "lifecycleStatus";
  }

  lemma PublicBatteryReads(b: Battery)
    ensures CO.Meaning(Obj(PublicBatteryMembers(b))) == CO.VObj(PublicBatteryFields(b))
  {
    hide PublicBatteryMembers, PublicBatteryFields, MemberFits, DistinctKeys;
    PublicBatteryFits(b);
    forall k | k in PublicBatteryFields(b)
      ensures exists i :: 0 <= i < |PublicBatteryMembers(b)| && PublicBatteryMembers(b)[i].key == k
    {
      PublicBatteryKeysThere(b, k);
    }
    ObjectReads(PublicBatteryMembers(b), PublicBatteryFields(b));
  }

  function PublicValueFields(env: Env, v: DocValue): Fields {
    Optional("name", v.content.name) +
    map["fieldId" := CO.VNum(env.rules.idText(v.content.field)), "value" := CO.Meaning(v.content.json),
        "unit" := TextOr(v.content.unit)]
  }

  lemma PublicValueFits(env: Env, v: DocValue)
    ensures DistinctKeys(PublicValueJson(env, v).members)
    ensures var members := PublicValueJson(env, v).members;
            forall i :: 0 <= i < |members| ==> MemberFits(members[i], PublicValueFields(env, v))
  {
    hide TextOrNull, TextOr;
    UnitReads(v.content.unit);
  }

  lemma UnitReads(s: Option<string>)
    ensures CO.Meaning(TextOrNull(s)) == TextOr(s)
  {
  }

  lemma PublicValueKeysThere(env: Env, v: DocValue, k: string)
    requires k in PublicValueFields(env, v)
    ensures exists i :: 0 <= i < |PublicValueJson(env, v).members| && PublicValueJson(env, v).members[i].key == k
  {
    hide TextOrNull, TextOr;
    var members, n := PublicValueJson(env, v).members, |PublicValueJson(env, v).members|;
    assert members[n - 3].key == "fieldId" && members[n - 2].key == "value" && members[n - 1].key == "unit";
    assert v.content.name.Some? ==> members[0].key == "name";
  }

  lemma PublicValueReads(env: Env, v: DocValue)
    ensures CO.Meaning(PublicValueJson(env, v)) == CO.VObj(PublicValueFields(env, v))
  {
    hide PublicValueFields, MemberFits, DistinctKeys;
    PublicValueFits(env, v);
    forall k | k in PublicValueFields(env, v)
      ensures exists i :: 0 <= i < |PublicValueJson(env, v).members| && PublicValueJson(env, v).members[i].key == k
    {
      PublicValueKeysThere(env, v, k);
    }
    ObjectReads(PublicValueJson(env, v).members, PublicValueFields(env, v));
  }

  function PublicFields(env: Env, doc: Document): Fields {
    map["schema" := Text(doc.schema), "ruleSetVersion" := Text(doc.ruleSet), "generatedAt" := Text(doc.generatedAt),
        "battery" := CO.VObj(PublicBatteryFields(doc.battery)),
        "values" := CO.VArr(seq(|doc.values|, i requires 0 <= i < |doc.values| =>
                                CO.VObj(PublicValueFields(env, doc.values[i]))))]
  }

  lemma PublicValuesRead(env: Env, values: seq<DocValue>)
    ensures CO.Meaning(Arr(PublicValuesJson(env, values))) ==
            CO.VArr(seq(|values|, i requires 0 <= i < |values| => CO.VObj(PublicValueFields(env, values[i]))))
  {
    hide PublicValueJson, PublicValueFields;
    var list := PublicValuesJson(env, values);
    ElemsAt(list);
    forall i | 0 <= i < |list| ensures CO.Meaning(list[i]) == CO.VObj(PublicValueFields(env, values[i])) {
      PublicValueReads(env, values[i]);
    }
  }

  /** Reading a projection by key gives these and nothing else: no internal id, status, source, tier or evidence. */
  lemma PublicReads(env: Env, doc: Document)
    ensures CO.Meaning(PublicJson(env, doc)) == CO.VObj(PublicFields(env, doc))
  {
    hide PublicBatteryMembers, PublicBatteryFields, PublicValuesJson, PublicValueFields;
    PublicValuesRead(env, doc.values);
    PublicBatteryReads(doc.battery);
    var members := PublicJson(env, doc).members;
    assert DistinctKeys(members);
    assert members[0].key == "schema" && members[1].key == "ruleSetVersion" && members[2].key == "generatedAt";
    assert members[3].key == "battery" && members[4].key == "values";
    ObjectReads(members, PublicFields(env, doc));
  }

  // ---- equal hashes mean equal contents ----

  /** Different ids and numbers are spelled differently. */
  ghost predicate SpellsApart(env: Env) {
    && (forall a: Id, b: Id :: env.idText(a) == env.idText(b) ==> a == b)
    && (forall a: int, b: int :: env.rules.idText(a) == env.rules.idText(b) ==> a == b)
  }

  /** The values say the same, their JSON up to the order of object members. */
  predicate SameValue(a: DocValue, b: DocValue) {
    && a.content.(json := b.content.json) == b.content && CO.Meaning(a.content.json) == CO.Meaning(b.content.json)
    && a.evidenceIds == b.evidenceIds
  }

  lemma WordsApart()
    ensures forall a: Status, b: Status :: StatusText(a) == StatusText(b) ==> a == b
    ensures forall a: Source, b: Source :: SourceText(a) == SourceText(b) ==> a == b
    ensures forall a: Tier, b: Tier :: TierText(a) == TierText(b) ==> a == b
    ensures forall a: Category, b: Category :: CategoryText(a) == CategoryText(b) ==> a == b
    ensures forall a: Lifecycle, b: Lifecycle :: LifecycleText(a) == LifecycleText(b) ==> a == b
  {
  }

  lemma SameFieldsSameValue(env: Env, a: DocValue, b: DocValue)
    requires SpellsApart(env) && ValueFields(env, a) == ValueFields(env, b)
    ensures SameValue(a, b)
  {
    hide StatusText, SourceText, TierText;
    WordsApart();
    var f, g := ValueFields(env, a), ValueFields(env, b);
    assert f["fieldId"] == g["fieldId"] && f["value"] == g["value"] && f["unit"] == g["unit"];
    assert f["validationStatus"] == g["validationStatus"] && f["sourceKind"] == g["sourceKind"];
    SameIds(env, a.evidenceIds, b.evidenceIds, f["evidenceIds"].elems, g["evidenceIds"].elems);
    SameOptions(env, a, b);
  }

  lemma SameOptions(env: Env, a: DocValue, b: DocValue)
    requires ValueFields(env, a) == ValueFields(env, b)
    ensures a.content.name == b.content.name && a.content.tier == b.content.tier
  {
    hide StatusText, SourceText, TierText;
    WordsApart();
    var f, g := ValueFields(env, a), ValueFields(env, b);
    assert "name" in f <==> a.content.name.Some?;
    assert "name" in g <==> b.content.name.Some?;
    assert "name" in f ==> f["name"] == g["name"];
    assert "accessTier" in f <==> a.content.tier.Some?;
    assert "accessTier" in g <==> b.content.tier.Some?;
    assert "accessTier" in f ==> f["accessTier"] == g["accessTier"];
  }

  lemma SameIds(env: Env, a: seq<Id>, b: seq<Id>, f: seq<CO.Value>, g: seq<CO.Value>)
    requires SpellsApart(env) && f == g
    requires |f| == |a| && forall i :: 0 <= i < |a| ==> f[i] == Text(env.idText(a[i]))
    requires |g| == |b| && forall i :: 0 <= i < |b| ==> g[i] == Text(env.idText(b[i]))
    ensures a == b
  {
    forall i | 0 <= i < |a| ensures a[i] == b[i] {
      assert f[i] == g[i];
    }
  }

  lemma SameFieldsSameBattery(env: Env, a: Battery, b: Battery)
    requires SpellsApart(env) && BatteryFields(env, a) == BatteryFields(env, b)
    ensures a == b
  {
    hide CategoryText, LifecycleText;
    WordsApart();
    var f, g := BatteryFields(env, a), BatteryFields(env, b);
    assert f["publicId"] == g["publicId"] && f["id"] == g["id"] && f["modelId"] == g["modelId"];
    assert f["modelIdentifier"] == g["modelIdentifier"] && f["serial"] == g["serial"] && f["batch"] == g["batch"];
    assert f["upi"] == g["upi"] && f["category"] == g["category"] && f["lifecycleStatus"] == g["lifecycleStatus"];
  }

  /**
   Two versions with one hash have the same battery block and the same values, and say when and how
   they were made.
   */
  lemma EqualHashesEqualDocuments(env: Env, a: Document, b: Document, isUuid: string -> bool)
    requires SpellsWell(env, isUuid) && SpellsApart(env) && DocOk(a) && DocOk(b)
    requires CO.HashJson(DocumentJson(env, a)) == CO.HashJson(DocumentJson(env, b))
    ensures a.schema == b.schema && a.ruleSet == b.ruleSet && a.generatedAt == b.generatedAt && a.battery == b.battery
    ensures |a.values| == |b.values| && forall i :: 0 <= i < |a.values| ==> SameValue(a.values[i], b.values[i])
  {
    hide IsNumber, BatteryJson, ValuesJson, BatteryFields, ValueFields, DocumentJson, SameValue;
    DocumentJsonOk(env, a, isUuid);
    DocumentJsonOk(env, b, isUuid);
    CO.CanonicalIffSame(DocumentJson(env, a), DocumentJson(env, b));
    DocumentReads(env, a);
    DocumentReads(env, b);
    var f, g := DocumentFieldsOf(env, a), DocumentFieldsOf(env, b);
    assert f["schema"] == g["schema"] && f["ruleSetVersion"] == g["ruleSetVersion"];
    assert f["generatedAt"] == g["generatedAt"] && f["battery"] == g["battery"] && f["values"] == g["values"];
    SameFieldsSameBattery(env, a.battery, b.battery);
    assert |f["values"].elems| == |a.values| && |g["values"].elems| == |b.values|;
    forall i | 0 <= i < |a.values| ensures SameValue(a.values[i], b.values[i]) {
      assert f["values"].elems[i] == g["values"].elems[i];
      SameFieldsSameValue(env, a.values[i], b.values[i]);
    }
  }
}
