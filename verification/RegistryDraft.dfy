/**
 From checked passport candidates to draft files: the candidate loop of
 `prepare`, grouping by (category, schema, rule set), and chunking.
 */
module RegistryDraft {
  import opened Prelude
  import opened Text
  import opened Grouping
  import opened CanonicalJson
  import opened RegistryXml
  import opened RegistryDocument

  const MAX_ITEMS := 1000

  // ---- validators ----

  predicate XmlTextAllowed(s: string) {
    forall i :: 0 <= i < |s| ==>
      var p := s[i] as int;
      p == 9 || p == 10 || p == 13 || 0x20 <= p <= 0xD7FF || 0xE000 <= p <= 0xFFFD || 0x10000 <= p
  }

  predicate IsHex(c: char) { '0' <= c <= '9' || 'a' <= c <= 'f' }

  /** `/^[a-f0-9]{64}$/` */
  predicate IsSha256(s: string) {
    |s| == 64 && forall i :: 0 <= i < 64 ==> IsHex(s[i])
  }

  predicate IsUuid(s: string) {
    |s| == 36 && forall i :: 0 <= i < 36 ==>
      if i == 8 || i == 13 || i == 18 || i == 23 then s[i] == '-' else IsHex(s[i]) || 'A' <= s[i] <= 'F'
  }

  predicate StartsWith(s: string, prefix: string) { |prefix| <= |s| && s[..|prefix|] == prefix }

  /** `urlAccepted` is what the URL parser says of host, credentials and fragment. */
  predicate ValidUpi(s: string, urlAccepted: string -> bool) {
    && Utf16Length(s) <= 2000 && StartsWith(s, "https://")
    && (forall i :: 0 <= i < |s| ==> !Blank(s[i]) && s[i] != '#')
    && urlAccepted(s) && XmlTextAllowed(s)
  }

  predicate KnownCategory(s: string) { s == "EV" || s == "LMT" || s == "INDUSTRIAL_GT_2KWH" }

  /** `recordSchema` */
  predicate ValidRecord(r: Record, urlAccepted: string -> bool) {
    && IsUuid(r.batteryItemId) && IsUuid(r.passportVersionId)
    && ValidUpi(r.upi, urlAccepted)
    && r.productIdentifier != "" && XmlTextAllowed(r.productIdentifier)
    && r.schemaStatus == DRAFT_STATUS && KnownCategory(r.category)
    && NotBlank(r.schemaVersion) && XmlTextAllowed(r.schemaVersion)
    && NotBlank(r.ruleSetVersion) && XmlTextAllowed(r.ruleSetVersion)
    && IsSha256(r.passportSha256)
  }

  /** What `buildRegistryDraft` (limit 1000) and `serializeRegistryDraft` (limit 100) demand of a list of records. */
  predicate Accepted(records: seq<Record>, urlAccepted: string -> bool, limit: nat) {
    && 1 <= |records| <= limit
    && (forall i :: 0 <= i < |records| ==> ValidRecord(records[i], urlAccepted))
    && DistinctIds(records)
  }

  predicate DistinctIds(records: seq<Record>) {
    forall i, j :: 0 <= i < j < |records| ==>
      records[i].upi != records[j].upi && records[i].batteryItemId != records[j].batteryItemId
  }

  // ---- the candidate loop ----

  /** The stored document's identity fields, as far as the loop reads them. */
  datatype Document = Document(upi: string, serial: string, category: string, schema: string, ruleSetVersion: string)

  datatype Version = Version(id: string, schemaVersion: string, ruleSetVersion: string, sha256: string,
                             document: Document, documentHash: string)

  datatype Item = Item(id: string, current: bool, publishable: bool, upi: Option<string>, serial: string,
                       category: string)

  datatype Candidate = Candidate(item: Item, latest: Option<Version>)

  datatype Code =
    | ItemNotAvailable | NoPublishedPassport | PassportNotCurrent | ComplianceBlockers | InvalidRegistryUpi
    | InvalidProductIdentifier | PublishedIdentityMismatch | InvalidContractMetadata | DuplicateUpi

  function IdentityCode(item: Item, v: Version, upis: set<string>): Option<Code>
    requires item.upi.Some?
  {
    if v.document.upi != item.upi.value || v.document.serial != item.serial || v.document.category != item.category
       || v.document.schema != v.schemaVersion || v.document.ruleSetVersion != v.ruleSetVersion
       || v.documentHash != v.sha256
    then Some(PublishedIdentityMismatch)
    else if !NotBlank(v.schemaVersion) || !NotBlank(v.ruleSetVersion) || !XmlTextAllowed(v.schemaVersion)
            || !XmlTextAllowed(v.ruleSetVersion) || !KnownCategory(item.category)
    then Some(InvalidContractMetadata)
    else if item.upi.value in upis then Some(DuplicateUpi)
    else None
  }

  /** The first reason against a candidate, in the order the loop looks for one. */
  function CodeOf(c: Candidate, upis: set<string>, urlAccepted: string -> bool): Option<Code> {
    if c.latest.None? then Some(NoPublishedPassport)
    else if !c.item.current then Some(PassportNotCurrent)
    else if !c.item.publishable then Some(ComplianceBlockers)
    else if c.item.upi.None? || !ValidUpi(c.item.upi.value, urlAccepted) then Some(InvalidRegistryUpi)
    else if c.item.serial == "" || !XmlTextAllowed(c.item.serial) then Some(InvalidProductIdentifier)
    else IdentityCode(c.item, c.latest.value, upis)
  }

  /**
   Rows come from the database: ids are UUIDs, hashes are SHA-256 in hexadecimal, and an item is
   found under its id.
   */
  predicate StoredRows(found: map<string, Candidate>) {
    forall id :: id in found ==>
      && found[id].item.id == id && IsUuid(id)
      && (found[id].latest.Some? ==> IsUuid(found[id].latest.value.id) && IsSha256(found[id].latest.value.documentHash))
  }

  predicate Request(itemIds: seq<string>) {
    1 <= |itemIds| <= MAX_ITEMS && forall i, j :: 0 <= i < j < |itemIds| ==> itemIds[i] != itemIds[j]
  }

  function RecordFor(c: Candidate): Record
    requires c.latest.Some? && c.item.upi.Some?
  {
    var v := c.latest.value;
    Record(c.item.id, v.id, c.item.upi.value, c.item.serial, DRAFT_STATUS, c.item.category,
           v.schemaVersion, v.ruleSetVersion, v.sha256)
  }

  datatype Collection = Collection(invalid: seq<(string, Code)>, records: seq<Record>)

  function UpisOf(records: seq<Record>): set<string> {
    set r | r in records :: r.upi
  }

  /** What one item adds to the lists. */
  function Collect(sofar: Collection, id: string, found: map<string, Candidate>,
                   urlAccepted: string -> bool): Collection {
    if id !in found then sofar.(invalid := sofar.invalid + [(id, ItemNotAvailable)])
    else
      var code := CodeOf(found[id], UpisOf(sofar.records), urlAccepted);
      if code.Some? then sofar.(invalid := sofar.invalid + [(id, code.value)])
      else sofar.(records := sofar.records + [RecordFor(found[id])])
  }

  function Collected(itemIds: seq<string>, n: nat, found: map<string, Candidate>,
                     urlAccepted: string -> bool): Collection
    requires n <= |itemIds|
  {
    if n == 0 then Collection([], [])
    else Collect(Collected(itemIds, n - 1, found, urlAccepted), itemIds[n - 1], found, urlAccepted)
  }

  /** The loop over the requested items, with the set of UPIs already used. */
  method CollectRecords(itemIds: seq<string>, found: map<string, Candidate>, urlAccepted: string -> bool)
    returns (invalid: seq<(string, Code)>, records: seq<Record>)
    ensures Collection(invalid, records) == Collected(itemIds, |itemIds|, found, urlAccepted)
  {
    invalid, records := [], [];
    var upis: set<string> := {};
    for n := 0 to |itemIds|
      invariant Collection(invalid, records) == Collected(itemIds, n, found, urlAccepted)
      invariant upis == UpisOf(records)
    {
      var id := itemIds[n];
      if id !in found {
        invalid := invalid + [(id, ItemNotAvailable)];
      } else {
        var code := CodeOf(found[id], upis, urlAccepted);
        if code.Some? {
          invalid := invalid + [(id, code.value)];
        } else {
          records := records + [RecordFor(found[id])];
          upis := upis + {found[id].item.upi.value};
        }
      }
    }
  }

  /** An item without a code has a valid record under its own id, with a new UPI. */
  lemma UncodedIsValid(found: map<string, Candidate>, id: string, upis: set<string>, urlAccepted: string -> bool)
    requires StoredRows(found) && id in found && CodeOf(found[id], upis, urlAccepted) == None
    ensures found[id].latest.Some? && found[id].item.upi.Some?
    ensures var r := RecordFor(found[id]); ValidRecord(r, urlAccepted) && r.batteryItemId == id && r.upi !in upis
  {
  }

  /** Whatever the loop keeps is valid, pairwise distinct and comes from the request. */
  lemma {:induction false} CollectedAreValid(itemIds: seq<string>, n: nat, found: map<string, Candidate>,
                                             urlAccepted: string -> bool)
    requires Request(itemIds) && StoredRows(found) && n <= |itemIds|
    ensures var c := Collected(itemIds, n, found, urlAccepted);
            && |c.invalid| + |c.records| == n
            && (forall r :: r in c.records ==> ValidRecord(r, urlAccepted) && r.batteryItemId in itemIds[..n])
            && DistinctIds(c.records)
    decreases n
  {
    hide ValidRecord, CodeOf, RecordFor, StoredRows;
    if n > 0 {
      CollectedAreValid(itemIds, n - 1, found, urlAccepted);
      var before := Collected(itemIds, n - 1, found, urlAccepted);
      var id := itemIds[n - 1];
      assert itemIds[..n] == itemIds[..n - 1] + [id];
      assert id !in itemIds[..n - 1];
      if id in found && CodeOf(found[id], UpisOf(before.records), urlAccepted) == None {
        UncodedIsValid(found, id, UpisOf(before.records), urlAccepted);
        assert forall i :: 0 <= i < |before.records| ==> before.records[i] in before.records;
      }
    }
  }

  /** The UPIs of the items requested before position `n`. */
  function EarlierUpis(itemIds: seq<string>, n: nat, found: map<string, Candidate>): set<string>
    requires n <= |itemIds|
  {
    set i | 0 <= i < n && itemIds[i] in found && found[itemIds[i]].item.upi.Some? :: found[itemIds[i]].item.upi.value
  }

  /** Item `i` of the request is available and nothing speaks against it, the earlier items' UPIs included. */
  predicate Passes(itemIds: seq<string>, i: nat, found: map<string, Candidate>, urlAccepted: string -> bool)
    requires i < |itemIds|
  {
    itemIds[i] in found && CodeOf(found[itemIds[i]], EarlierUpis(itemIds, i, found), urlAccepted) == None
  }

  /** One step of the loop while no item had a code. */
  lemma CollectStep(itemIds: seq<string>, n: nat, found: map<string, Candidate>, urlAccepted: string -> bool,
                    before: Collection)
    requires n < |itemIds| && before.invalid == [] && UpisOf(before.records) == EarlierUpis(itemIds, n, found)
    ensures var after := Collect(before, itemIds[n], found, urlAccepted);
            && (after.invalid == [] <==> Passes(itemIds, n, found, urlAccepted))
            && (after.invalid == [] ==>
                  && after.records == before.records + [RecordFor(found[itemIds[n]])]
                  && UpisOf(after.records) == EarlierUpis(itemIds, n + 1, found))
  {
    var id := itemIds[n];
    if Passes(itemIds, n, found, urlAccepted) {
      var r := RecordFor(found[id]);
      assert UpisOf(before.records + [r]) == UpisOf(before.records) + {r.upi};
      assert EarlierUpis(itemIds, n + 1, found) == EarlierUpis(itemIds, n, found) + {r.upi};
    }
  }

  lemma CollectStepOrStay(itemIds: seq<string>, n: nat, found: map<string, Candidate>, urlAccepted: string -> bool,
                          before: Collection)
    requires n < |itemIds|
    requires before.invalid == [] ==> UpisOf(before.records) == EarlierUpis(itemIds, n, found)
    ensures var after := Collect(before, itemIds[n], found, urlAccepted);
            && (after.invalid == [] <==> before.invalid == [] && Passes(itemIds, n, found, urlAccepted))
            && (after.invalid == [] ==> UpisOf(after.records) == EarlierUpis(itemIds, n + 1, found))
  {
    if before.invalid == [] {
      CollectStep(itemIds, n, found, urlAccepted, before);
    }
  }

  predicate AllPass(itemIds: seq<string>, n: nat, found: map<string, Candidate>, urlAccepted: string -> bool)
    requires n <= |itemIds|
  {
    n == 0 || (AllPass(itemIds, n - 1, found, urlAccepted) && Passes(itemIds, n - 1, found, urlAccepted))
  }

  /** No item has a code exactly when every item passes. */
  lemma {:induction false} CollectedAllOrSome(itemIds: seq<string>, n: nat, found: map<string, Candidate>,
                                              urlAccepted: string -> bool)
    requires n <= |itemIds|
    ensures var c := Collected(itemIds, n, found, urlAccepted);
            && (c.invalid == [] <==> AllPass(itemIds, n, found, urlAccepted))
            && (c.invalid == [] ==> UpisOf(c.records) == EarlierUpis(itemIds, n, found))
    decreases n
  {
    if n == 0 {
      assert EarlierUpis(itemIds, 0, found) == {};
    } else {
      CollectedAllOrSome(itemIds, n - 1, found, urlAccepted);
      CollectStepOrStay(itemIds, n - 1, found, urlAccepted, Collected(itemIds, n - 1, found, urlAccepted));
    }
  }

  /** If every item passes, the records are the items' records in request order. */
  lemma {:induction false} RecordsInOrder(itemIds: seq<string>, n: nat, found: map<string, Candidate>,
                                          urlAccepted: string -> bool, i: nat)
    requires i < n <= |itemIds| && AllPass(itemIds, n, found, urlAccepted)
    ensures itemIds[i] in found && found[itemIds[i]].latest.Some? && found[itemIds[i]].item.upi.Some?
    ensures |Collected(itemIds, n, found, urlAccepted).records| == n
    ensures Collected(itemIds, n, found, urlAccepted).records[i] == RecordFor(found[itemIds[i]])
    decreases n
  {
    CollectedAllOrSome(itemIds, n - 1, found, urlAccepted);
    CollectStep(itemIds, n - 1, found, urlAccepted, Collected(itemIds, n - 1, found, urlAccepted));
    if n > 1 {
      RecordsInOrder(itemIds, n - 1, found, urlAccepted, if i < n - 1 then i else 0);
    }
  }

  /**
   A request either gets at least one code and no draft, or one record per item
   that both inner validators accept: the list of at most 1000 and each batch.
   */
  lemma SurvivorsAreAccepted(itemIds: seq<string>, found: map<string, Candidate>, urlAccepted: string -> bool)
    requires Request(itemIds) && StoredRows(found)
    ensures var c := Collected(itemIds, |itemIds|, found, urlAccepted);
            && (c.invalid == [] <==> AllPass(itemIds, |itemIds|, found, urlAccepted))
            && (c.invalid == [] ==> Accepted(c.records, urlAccepted, MAX_ITEMS))
            && (c.invalid == [] ==> forall batch :: batch in DraftBatches(c.records) ==>
                Accepted(batch, urlAccepted, MAX_BATCH))
  {
    var c := Collected(itemIds, |itemIds|, found, urlAccepted);
    CollectedAreValid(itemIds, |itemIds|, found, urlAccepted);
    CollectedAllOrSome(itemIds, |itemIds|, found, urlAccepted);
    if c.invalid == [] {
      forall i | 0 <= i < |c.records| ensures ValidRecord(c.records[i], urlAccepted) {
        assert c.records[i] in c.records;
      }
      forall batch | batch in DraftBatches(c.records) ensures Accepted(batch, urlAccepted, MAX_BATCH) {
        BatchIsAccepted(c.records, batch, urlAccepted);
      }
    }
  }

  // ---- who is drafted, apart from the loop ----

  /**
   An item that may be drafted: its passport is published, current and free of blockers,
   its latest version says of it what the item says, and every text is one the
   Registry takes.
   */
  ghost predicate Draftable(c: Candidate, urlAccepted: string -> bool) {
    && c.item.current && c.item.publishable && c.latest.Some?
    && c.item.upi.Some? && RegistryUrl(c.item.upi.value, urlAccepted)
    && c.item.serial != "" && XmlChars(c.item.serial)
    && c.item.category in {"EV", "LMT", "INDUSTRIAL_GT_2KWH"}
    && var v := c.latest.value;
    && v.document == Document(c.item.upi.value, c.item.serial, c.item.category, v.schemaVersion, v.ruleSetVersion)
    && v.documentHash == v.sha256
    && NotBlank(v.schemaVersion) && XmlChars(v.schemaVersion)
    && NotBlank(v.ruleSetVersion) && XmlChars(v.ruleSetVersion)
  }

  /** No control characters but tab and line ends, and no non-characters: section 2.2 of XML 1.0. */
  ghost predicate XmlChars(s: string) {
    forall i :: 0 <= i < |s| ==>
      !(s[i] as int < 0x20 && s[i] !in {'\t', '\n', '\r'}) && s[i] as int != 0xFFFE && s[i] as int != 0xFFFF
  }

  ghost predicate RegistryUrl(s: string, urlAccepted: string -> bool) {
    && Utf16Length(s) <= 2000 && "https://" <= s && urlAccepted(s) && XmlChars(s)
    && (forall i :: 0 <= i < |s| ==> s[i] != '#' && !Blank(s[i]))
  }

  lemma TextIsXmlChars(s: string)
    ensures XmlTextAllowed(s) <==> XmlChars(s)
  {
  }

  lemma UpiIsRegistryUrl(s: string, urlAccepted: string -> bool)
    ensures ValidUpi(s, urlAccepted) <==> RegistryUrl(s, urlAccepted)
  {
    TextIsXmlChars(s);
    hide XmlTextAllowed, XmlChars;
  }

  ghost predicate HexDigits(s: string, upper: bool) {
    forall i :: 0 <= i < |s| ==> '0' <= s[i] <= '9' || 'a' <= s[i] <= 'f' || (upper && 'A' <= s[i] <= 'F')
  }

  /** Groups of 8, 4, 4, 4 and 12 hexadecimal digits. */
  ghost predicate Uuid(s: string) {
    && |s| == 36 && s[8] == s[13] == s[18] == s[23] == '-'
    && HexDigits(s[..8] + s[9..13] + s[14..18] + s[19..23] + s[24..], true)
  }

  lemma UuidShape(s: string)
    ensures IsUuid(s) <==> Uuid(s)
  {
    if |s| == 36 {
      var digits := s[..8] + s[9..13] + s[14..18] + s[19..23] + s[24..];
      forall i | 0 <= i < 36 && i != 8 && i != 13 && i != 18 && i != 23
        ensures s[i] == digits[if i < 8 then i else if i < 13 then i - 1 else if i < 18 then i - 2
                               else if i < 23 then i - 3 else i - 4]
      {
      }
    }
  }

  /** What both validators demand of a record. */
  lemma RecordIsValid(r: Record, urlAccepted: string -> bool)
    ensures ValidRecord(r, urlAccepted) <==>
            && Uuid(r.batteryItemId) && Uuid(r.passportVersionId) && RegistryUrl(r.upi, urlAccepted)
            && r.productIdentifier != "" && XmlChars(r.productIdentifier)
            && r.schemaStatus == "draft-pending-battery-semantic-catalogue"
            && r.category in {"EV", "LMT", "INDUSTRIAL_GT_2KWH"}
            && NotBlank(r.schemaVersion) && XmlChars(r.schemaVersion)
            && NotBlank(r.ruleSetVersion) && XmlChars(r.ruleSetVersion)
            && |r.passportSha256| == 64 && HexDigits(r.passportSha256, false)
  {
    hide XmlTextAllowed, XmlChars, ValidUpi, RegistryUrl, NotBlank, IsUuid, Uuid;
    UuidShape(r.batteryItemId);
    UuidShape(r.passportVersionId);
    UpiIsRegistryUrl(r.upi, urlAccepted);
    TextIsXmlChars(r.productIdentifier);
    TextIsXmlChars(r.schemaVersion);
    TextIsXmlChars(r.ruleSetVersion);
  }

  lemma NoCodeMeansDraftable(c: Candidate, upis: set<string>, urlAccepted: string -> bool)
    ensures CodeOf(c, upis, urlAccepted) == None <==> Draftable(c, urlAccepted) && c.item.upi.value !in upis
  {
    hide XmlTextAllowed, XmlChars, ValidUpi, RegistryUrl, NotBlank;
    if c.item.upi.Some? {
      UpiIsRegistryUrl(c.item.upi.value, urlAccepted);
    }
    TextIsXmlChars(c.item.serial);
    if c.latest.Some? {
      TextIsXmlChars(c.latest.value.schemaVersion);
      TextIsXmlChars(c.latest.value.ruleSetVersion);
    }
  }

  /** Every requested item is there and may be drafted, and no two share an identifier. */
  ghost predicate AllDraftable(itemIds: seq<string>, n: nat, found: map<string, Candidate>, urlAccepted: string -> bool)
    requires n <= |itemIds|
  {
    && (forall i :: 0 <= i < n ==> itemIds[i] in found && Draftable(found[itemIds[i]], urlAccepted))
    && (forall i, j :: 0 <= i < j < n ==> found[itemIds[i]].item.upi != found[itemIds[j]].item.upi)
  }

  lemma {:induction false} AllPassMeansDraftable(itemIds: seq<string>, n: nat, found: map<string, Candidate>,
                                                 urlAccepted: string -> bool)
    requires n <= |itemIds|
    ensures AllPass(itemIds, n, found, urlAccepted) <==> AllDraftable(itemIds, n, found, urlAccepted)
    decreases n
  {
    hide CodeOf, Draftable;
    if n > 0 {
      AllPassMeansDraftable(itemIds, n - 1, found, urlAccepted);
      if itemIds[n - 1] in found {
        LastIsDraftable(itemIds, n, found, urlAccepted);
      }
    }
  }

  lemma LastIsDraftable(itemIds: seq<string>, n: nat, found: map<string, Candidate>, urlAccepted: string -> bool)
    requires 0 < n <= |itemIds| && itemIds[n - 1] in found
    ensures AllDraftable(itemIds, n, found, urlAccepted) <==>
            && AllDraftable(itemIds, n - 1, found, urlAccepted)
            && CodeOf(found[itemIds[n - 1]], EarlierUpis(itemIds, n - 1, found), urlAccepted) == None
  {
    hide CodeOf, ValidUpi;
    var last, earlier := found[itemIds[n - 1]], EarlierUpis(itemIds, n - 1, found);
    NoCodeMeansDraftable(last, earlier, urlAccepted);
    if AllDraftable(itemIds, n - 1, found, urlAccepted) && Draftable(last, urlAccepted)
       && last.item.upi.value !in earlier {
      forall i | 0 <= i < n - 1 ensures found[itemIds[i]].item.upi != last.item.upi {
        assert itemIds[i] in found && Draftable(found[itemIds[i]], urlAccepted);
        assert found[itemIds[i]].item.upi.value in earlier;
      }
    }
  }

  /** The first of four reasons that do not depend on the other items, if there is one. */
  function FirstReason(found: map<string, Candidate>, id: string): Option<Code> {
    if id !in found then Some(ItemNotAvailable)
    else if found[id].latest == None then Some(NoPublishedPassport)
    else if !found[id].item.current then Some(PassportNotCurrent)
    else if !found[id].item.publishable then Some(ComplianceBlockers)
    else None
  }

  /** Such an item is reported with its reason. */
  lemma {:induction false} ReasonIsReported(itemIds: seq<string>, n: nat, found: map<string, Candidate>,
                                            urlAccepted: string -> bool, i: nat)
    requires i < n <= |itemIds| && FirstReason(found, itemIds[i]).Some?
    ensures (itemIds[i], FirstReason(found, itemIds[i]).value) in Collected(itemIds, n, found, urlAccepted).invalid
    decreases n
  {
    hide IdentityCode, ValidUpi;
    if i < n - 1 {
      ReasonIsReported(itemIds, n - 1, found, urlAccepted, i);
    }
  }

  /** A record says of its item what the candidate says. */
  lemma RecordSays(c: Candidate)
    requires c.latest.Some? && c.item.upi.Some?
    ensures var r, v := RecordFor(c), c.latest.value;
            && r.batteryItemId == c.item.id && r.passportVersionId == v.id && r.upi == c.item.upi.value
            && r.productIdentifier == c.item.serial && r.category == c.item.category
            && r.schemaVersion == v.schemaVersion && r.ruleSetVersion == v.ruleSetVersion
            && r.passportSha256 == v.sha256 && r.schemaStatus == "draft-pending-battery-semantic-catalogue"
  {
  }

  // ---- grouping ----

  /** `JSON.stringify([category, schemaVersion, ruleSetVersion])` */
  function GroupKey(r: Record): string {
    Write(Arr([Str(r.category), Str(r.schemaVersion), Str(r.ruleSetVersion)]))
  }

  /** The text key separates exactly the triples. */
  lemma GroupKeyInjective(r: Record, s: Record)
    ensures GroupKey(r) == GroupKey(s) <==>
            r.category == s.category && r.schemaVersion == s.schemaVersion && r.ruleSetVersion == s.ruleSetVersion
  {
    var a := [Str(r.category), Str(r.schemaVersion), Str(r.ruleSetVersion)];
    var b := [Str(s.category), Str(s.schemaVersion), Str(s.ruleSetVersion)];
    if GroupKey(r) == GroupKey(s) {
      WriteInjective(Arr(a), Arr(b));
      assert a[0] == b[0] && a[1] == b[1] && a[2] == b[2];
    }
  }

  /** The groups' batches, of one category, schema and rule set each. */
  function DraftBatches(records: seq<Record>): seq<seq<Record>> {
    Batches(records, GroupKey)
  }

  /** The draft partitions the records: nothing is lost, repeated or mixed. */
  lemma DraftPartitions(records: seq<Record>)
    ensures multiset(Flatten(DraftBatches(records))) == multiset(records)
    ensures Flatten(DraftBatches(records)) == Grouped(records, GroupKey, FirstSeen(records, GroupKey))
    ensures |DraftBatches(records)| == CeilingSum(records, GroupKey, FirstSeen(records, GroupKey))
  {
    BatchesConcatenate(records, GroupKey, FirstSeen(records, GroupKey));
    GroupedPermutes(records, GroupKey);
  }

  /** Every batch holds 1 to 100 of the records, all of one category, schema and rule set. */
  lemma DraftBatchesAreUniform(records: seq<Record>, batch: seq<Record>)
    requires batch in DraftBatches(records)
    ensures 1 <= |batch| <= 100
    ensures forall r :: r in batch ==> r in records
    ensures forall r, s :: r in batch && s in batch ==>
              r.category == s.category && r.schemaVersion == s.schemaVersion && r.ruleSetVersion == s.ruleSetVersion
  {
    BatchesAreUniform(records, GroupKey, FirstSeen(records, GroupKey), batch);
    forall r, s | r in batch && s in batch
      ensures r.category == s.category && r.schemaVersion == s.schemaVersion && r.ruleSetVersion == s.ruleSetVersion
    {
      GroupKeyInjective(r, s);
    }
  }

  /** Part of a list without repeated identifiers has none either. */
  lemma PartIsDistinct(records: seq<Record>, batch: seq<Record>)
    requires DistinctIds(records) && multiset(batch) <= multiset(records)
    ensures DistinctIds(batch)
  {
    forall i, j | 0 <= i < j < |batch|
      ensures batch[i].upi != batch[j].upi && batch[i].batteryItemId != batch[j].batteryItemId
    {
      assert batch[i] in multiset(batch) && batch[j] in multiset(batch);
      if batch[i] == batch[j] {
        TwiceInSeq(batch, i, j);
        OnceInSeq(records, batch[i]);
      }
    }
  }

  lemma TwiceInSeq(s: seq<Record>, i: nat, j: nat)
    requires i < j < |s| && s[i] == s[j]
    ensures multiset(s)[s[i]] >= 2
  {
    assert s == s[..i] + [s[i]] + s[i + 1..j] + [s[j]] + s[j + 1..];
  }

  lemma {:induction false} OnceInSeq(s: seq<Record>, r: Record)
    requires DistinctIds(s)
    ensures multiset(s)[r] <= 1
    decreases |s|
  {
    if s != [] {
      OnceInSeq(s[1..], r);
      assert s == [s[0]] + s[1..];
      assert r == s[0] ==> r !in s[1..];
    }
  }

  lemma BatchIsAccepted(records: seq<Record>, batch: seq<Record>, urlAccepted: string -> bool)
    requires Accepted(records, urlAccepted, MAX_ITEMS) && batch in DraftBatches(records)
    ensures Accepted(batch, urlAccepted, MAX_BATCH)
  {
    DraftBatchesAreUniform(records, batch);
    FlattenMembers(DraftBatches(records), batch);
    DraftPartitions(records);
    PartIsDistinct(records, batch);
    forall i | 0 <= i < |batch| ensures ValidRecord(batch[i], urlAccepted) {
      assert batch[i] in records;
    }
  }

  /** Reading back every XML file of a draft yields the grouped records: a permutation of what was checked. */
  function ReadBack(batches: seq<seq<Record>>, correlationIds: seq<string>): Option<seq<seq<Field>>>
    requires |correlationIds| == |batches|
  {
    if batches == [] then Some([])
    else match (ReadXml(XmlText(batches[0], correlationIds[0])), ReadBack(batches[1..], correlationIds[1..]))
      case (Some(a), Some(b)) => Some(a + b)
      case _ => None
  }

  lemma {:induction false} FilesReadBack(batches: seq<seq<Record>>, correlationIds: seq<string>)
    requires |correlationIds| == |batches| && forall i :: 0 <= i < |correlationIds| ==> IsUuid(correlationIds[i])
    ensures ReadBack(batches, correlationIds) == Some(EntriesOf(Flatten(batches)))
    decreases |batches|
  {
    if batches != [] {
      XmlRoundTrip(batches[0], correlationIds[0]);
      FilesReadBack(batches[1..], correlationIds[1..]);
      EntriesConcat(batches[0], Flatten(batches[1..]));
    }
  }

  lemma {:induction false} EntriesConcat(a: seq<Record>, b: seq<Record>)
    ensures EntriesOf(a + b) == EntriesOf(a) + EntriesOf(b)
    decreases |a|
  {
    if a == [] {
      assert a + b == b;
    } else {
      assert (a + b)[1..] == a[1..] + b;
      EntriesConcat(a[1..], b);
    }
  }

  // ---- prepare ----

  /** `buildRegistryDraft`: validates the list, then each batch again while serialising it; `None` is a thrown error. */
  method BuildDraft(records: seq<Record>, urlAccepted: string -> bool) returns (draft: Option<seq<seq<Record>>>)
    ensures draft == if Accepted(records, urlAccepted, MAX_ITEMS) then Some(DraftBatches(records)) else None
  {
    if !Accepted(records, urlAccepted, MAX_ITEMS) {
      return None;
    }
    var batches := BuildBatches(records, GroupKey);
    for n := 0 to |batches| {
      BatchIsAccepted(records, batches[n], urlAccepted);
      if !Accepted(batches[n], urlAccepted, MAX_BATCH) {
        assert false;
        return None;
      }
    }
    draft := Some(batches);
  }

  datatype Submission = Submission(batteryItemId: string, passportVersionId: string, batchIndex: nat, recordIndex: nat)

  function SubmissionsFor(batch: seq<Record>, batchIndex: nat): seq<Submission> {
    seq(|batch|, i requires 0 <= i < |batch| => Submission(batch[i].batteryItemId, batch[i].passportVersionId,
                                                           batchIndex, i))
  }

  function AllSubmissions(batches: seq<seq<Record>>, n: nat): seq<Submission>
    requires n <= |batches|
  {
    if n == 0 then [] else AllSubmissions(batches, n - 1) + SubmissionsFor(batches[n - 1], n - 1)
  }

  /** There is a submission for each record of each batch, at its place in the draft, and no other. */
  lemma {:induction false} SubmissionsMean(batches: seq<seq<Record>>, n: nat)
    requires n <= |batches|
    ensures forall s :: s in AllSubmissions(batches, n) <==>
              && 0 <= s.batchIndex < n && s.recordIndex < |batches[s.batchIndex]|
              && s.batteryItemId == batches[s.batchIndex][s.recordIndex].batteryItemId
              && s.passportVersionId == batches[s.batchIndex][s.recordIndex].passportVersionId
  {
    if n > 0 {
      SubmissionsMean(batches, n - 1);
      var batch, last := batches[n - 1], SubmissionsFor(batches[n - 1], n - 1);
      forall i | 0 <= i < |batch|
        ensures Submission(batch[i].batteryItemId, batch[i].passportVersionId, n - 1, i) in last
      {
        assert last[i] in last;
      }
    }
  }

  datatype Audit = Prevalidation(invalid: seq<(string, Code)>) | Exported(files: nat)

  datatype Outcome = Rejected(invalid: seq<(string, Code)>) | Draft(batches: seq<seq<Record>>) | Failed

  class RegistryDb {
    var submissions: seq<Submission>
    var audits: seq<Audit>

    /**
     One transaction: either every record becomes a submission row, or none does and the codes are
     recorded. It never fails.
     */
    method Prepare(itemIds: seq<string>, found: map<string, Candidate>, urlAccepted: string -> bool)
      returns (outcome: Outcome)
      requires Request(itemIds) && StoredRows(found)
      modifies this
      ensures !outcome.Failed?
      ensures outcome.Draft? <==> AllPass(itemIds, |itemIds|, found, urlAccepted)
      ensures outcome.Rejected? ==>
                && outcome.invalid == Collected(itemIds, |itemIds|, found, urlAccepted).invalid != []
                && submissions == old(submissions) && audits == old(audits) + [Prevalidation(outcome.invalid)]
      // A draft is made exactly of items that may be drafted; any other is reported with its reason.
      ensures outcome.Draft? <==> AllDraftable(itemIds, |itemIds|, found, urlAccepted)
      ensures forall i :: 0 <= i < |itemIds| && FirstReason(found, itemIds[i]).Some? ==>
                outcome.Rejected? && (itemIds[i], FirstReason(found, itemIds[i]).value) in outcome.invalid
      ensures outcome.Draft? ==>
                && outcome.batches == DraftBatches(Collected(itemIds, |itemIds|, found, urlAccepted).records)
                && submissions == old(submissions) + AllSubmissions(outcome.batches, |outcome.batches|)
                && audits == old(audits) + [Exported(|outcome.batches|)]
    {
      var invalid, records := CollectRecords(itemIds, found, urlAccepted);
      SurvivorsAreAccepted(itemIds, found, urlAccepted);
      AllPassMeansDraftable(itemIds, |itemIds|, found, urlAccepted);
      forall i | 0 <= i < |itemIds| && FirstReason(found, itemIds[i]).Some?
        ensures (itemIds[i], FirstReason(found, itemIds[i]).value) in invalid
      {
        ReasonIsReported(itemIds, |itemIds|, found, urlAccepted, i);
      }
      hide AllDraftable, FirstReason, AllPass, Collected;
      if |invalid| > 0 {
        audits := audits + [Prevalidation(invalid)];
        return Rejected(invalid);
      }
      var draft := BuildDraft(records, urlAccepted);
      if draft.None? {
        return Failed;
      }
      var rows: seq<Submission> := [];
      for n := 0 to |draft.value|
        invariant rows == AllSubmissions(draft.value, n)
      {
        rows := rows + SubmissionsFor(draft.value[n], n);
      }
      submissions := submissions + rows;
      audits := audits + [Exported(|draft.value|)];
      return Draft(draft.value);
    }
  }

  function ItemsOf(rows: seq<Submission>): seq<string> {
    seq(|rows|, i requires 0 <= i < |rows| => rows[i].batteryItemId)
  }

  function IdsOf(records: seq<Record>): seq<string> {
    seq(|records|, i requires 0 <= i < |records| => records[i].batteryItemId)
  }

  lemma {:induction false} SubmissionsCoverBatches(batches: seq<seq<Record>>, n: nat)
    requires n <= |batches|
    ensures ItemsOf(AllSubmissions(batches, n)) == IdsOf(Flatten(batches[..n]))
  {
    if n == 0 {
      assert batches[..0] == [];
    } else {
      SubmissionsCoverBatches(batches, n - 1);
      assert batches[..n] == batches[..n - 1] + [batches[n - 1]];
      FlattenConcat(batches[..n - 1], [batches[n - 1]]);
      assert Flatten([batches[n - 1]]) == batches[n - 1];
      assert ItemsOf(SubmissionsFor(batches[n - 1], n - 1)) == IdsOf(batches[n - 1]);
      assert ItemsOf(AllSubmissions(batches, n)) == ItemsOf(AllSubmissions(batches, n - 1)) + IdsOf(batches[n - 1]);
      assert Flatten(batches[..n]) == Flatten(batches[..n - 1]) + batches[n - 1];
    }
  }

  /** A successful draft writes exactly one submission row per requested item. */
  lemma EachItemSubmittedOnce(itemIds: seq<string>, found: map<string, Candidate>, urlAccepted: string -> bool)
    requires AllPass(itemIds, |itemIds|, found, urlAccepted)
    requires Request(itemIds) && StoredRows(found)
    ensures var batches := DraftBatches(Collected(itemIds, |itemIds|, found, urlAccepted).records);
            multiset(ItemsOf(AllSubmissions(batches, |batches|))) == multiset(itemIds)
  {
    var records := Collected(itemIds, |itemIds|, found, urlAccepted).records;
    var batches := DraftBatches(records);
    RecordsInOrder(itemIds, |itemIds|, found, urlAccepted, 0);
    forall i | 0 <= i < |itemIds| ensures IdsOf(records)[i] == itemIds[i] {
      RecordsInOrder(itemIds, |itemIds|, found, urlAccepted, i);
    }
    assert IdsOf(records) == itemIds;
    SubmissionsCoverBatches(batches, |batches|);
    assert batches[..|batches|] == batches;
    DraftPartitions(records);
    SameItems(Flatten(batches), records);
  }

  lemma TakenOut(b: seq<Record>, k: nat)
    requires k < |b|
    ensures multiset(Without(b, k)) == multiset(b) - multiset{b[k]}
    ensures multiset(IdsOf(Without(b, k))) + multiset{b[k].batteryItemId} == multiset(IdsOf(b))
  {
    assert b == b[..k] + [b[k]] + b[k + 1..];
    assert IdsOf(b) == IdsOf(b[..k]) + [b[k].batteryItemId] + IdsOf(b[k + 1..]);
    assert IdsOf(b[..k] + b[k + 1..]) == IdsOf(b[..k]) + IdsOf(b[k + 1..]);
  }

  function Without(s: seq<Record>, k: nat): seq<Record>
    requires k < |s|
  {
    s[..k] + s[k + 1..]
  }

  lemma {:induction false} SameItems(a: seq<Record>, b: seq<Record>)
    requires multiset(a) == multiset(b)
    ensures multiset(IdsOf(a)) == multiset(IdsOf(b))
    decreases |a|
  {
    assert |multiset(a)| == |multiset(b)|;
    if a != [] {
      var k := IndexIn(a[0], a, b);
      TakenOut(a, 0);
      TakenOut(b, k);
      SameItems(Without(a, 0), Without(b, k));
    }
  }

  lemma IndexIn(r: Record, a: seq<Record>, b: seq<Record>) returns (k: nat)
    requires r in a && multiset(a) == multiset(b)
    ensures k < |b| && b[k] == r
  {
    assert r in multiset(a);
    k :| 0 <= k < |b| && b[k] == r;
  }
}
