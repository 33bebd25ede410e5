/**
 One evidence row and the requests that work on it. A request loads the row,
 reads and scans the stored bytes for as long as that takes, and then writes
 only if the row is still as loaded.
 */
module EvidenceCas {
  import opened Prelude
  import opened Text
  import PT = PassportTables
  import PS = PassportSteps

  type Id = nat

  datatype Status = PendingUpload | Uploaded | Unverified | Verified | Rejected | Superseded

  /** Digests are lower-case hexadecimal text; `checksum` is the digest that the stored base64 form encodes. */
  datatype Row = Row(
    key: string, status: Status, sha256: Option<string>, size: Option<nat>, issued: Option<int>, expires: Option<int>,
    checksum: Option<string>, version: Option<string>, scanSha: Option<string>, scannedAt: Option<int>,
        scanner: Option<string>,
    uploadedAt: Option<int>, updatedAt: int)

  datatype Scan = Scan(at: int, scanner: string)

  /** What reading the object in storage may yield; a scan is only reported for an immutable version. */
  datatype Verdict = Read(actual: string, version: Option<string>, scan: Option<Scan>) | Malware | Unreadable

  predicate Reported(v: Verdict) {
    v.Read? && v.scan.Some? ==> v.version.Some? && v.version.value != "" && v.scan.value.scanner != ""
  }

  datatype Code =
    | NotReady | OutsideValidity | MetadataRequired | HashMismatch | MalwareDetected | StorageError | ChangedRetry
    | LinksChangedRetry | DownloadNotReady | DownloadUnavailable | VersionMismatch

  /** The values an evidence object was linked to when an attempt began, and once it held its locks. */
  datatype Links = Links(before: seq<Id>, locked: seq<Id>)

  /** What storage says of the scanned version. */
  datatype Head = Head(version: Option<string>, length: Option<nat>, sha256: Option<string>)

  datatype Download = Issued(seconds: nat) | NoDownload(code: Code)

  datatype Result = Written(row: Row) | Unchanged(row: Row) | Refused(code: Code)

  // ---- predicates ----

  predicate IsHex(s: string) {
    |s| == 64 && forall i :: 0 <= i < |s| ==> '0' <= s[i] <= '9' || 'a' <= s[i] <= 'f'
  }

  /** `assertCurrent` */
  function CurrentCode(row: Row, allowPending: bool, now: int): Option<Code> {
    if !(row.status == Uploaded || row.status == Unverified || row.status == Verified
         || (allowPending && row.status == PendingUpload))
    then Some(NotReady)
    else if (row.expires.Some? && row.expires.value <= now) || (row.issued.Some? && row.issued.value > now)
        then Some(OutsideValidity)
    else None
  }

  predicate Same(row: Row, loaded: Row) {
    row.updatedAt == loaded.updatedAt && row.status == loaded.status
  }

  predicate Scanned(row: Row) {
    && row.sha256.Some? && row.sha256.value != "" && row.scanSha == row.sha256
    && row.scannedAt.Some? && row.scanner.Some? && row.scanner.value != "" && row.version.Some?
       && row.version.value != ""
  }

  // ---- the transactions ----

  /** The columns a byte check sets: without a version in storage, or without a scan, they become null. */
  function Checked(row: Row, v: Verdict): Row
    requires v.Read?
  {
    row.(checksum := Some(v.actual), version := v.version,
         scanSha := if v.scan.Some? then Some(v.actual) else None,
         scannedAt := if v.scan.Some? then Some(v.scan.value.at) else None,
         scanner := if v.scan.Some? then Some(v.scan.value.scanner) else None)
  }

  /** `transition`: compare and set, with what the byte check found. */
  function Transition(row: Row, loaded: Row, target: Status, v: Verdict, now: int): Result
    requires v.Read?
  {
    if CurrentCode(loaded, target == Uploaded, now).Some?
        then Refused(CurrentCode(loaded, target == Uploaded, now).value)
    else if !Same(row, loaded) then Refused(ChangedRetry)
    else
      var checked := Checked(row, v);
      var uploadedAt := if target == Uploaded then Some(now) else row.uploadedAt;
      Written(checked.(status := target, uploadedAt := uploadedAt, updatedAt := now))
  }

  /** The rejection inside `checkBytes`. */
  function Reject(row: Row, loaded: Row, now: int): Result {
    if !Same(row, loaded) then Refused(ChangedRetry)
    else Written(row.(status := Rejected, scanSha := None, scannedAt := None, scanner := None, updatedAt := now))
  }

  datatype Action = Finalize | Verify

  /** What a request does to the row once the byte check is over. */
  function Finish(row: Row, loaded: Row, action: Action, v: Verdict, now: int): Result {
    if loaded.sha256.None? || !IsHex(loaded.sha256.value) || loaded.size.None? then Refused(MetadataRequired)
    else if v.Malware? then Reject(row, loaded, now)
    else if v.Unreadable? then Refused(StorageError)
    else if v.actual != loaded.sha256.value then Refused(HashMismatch)
    else if action == Finalize then
      if loaded.status != PendingUpload && v.scan.None? then Unchanged(loaded)
      else Transition(row, loaded, if loaded.status == Verified then Verified else Uploaded, v, now)
    else if loaded.status == Verified && v.scan.None? then Unchanged(loaded)
    else Transition(row, loaded, Verified, v, now)
  }

  function RowAfter(row: Row, r: Result): Row {
    if r.Written? then r.row else row
  }

  /** Both lists name the same values. */
  predicate SameLinks(l: Links) {
    multiset(l.before) == multiset(l.locked)
  }

  // ---- what the endpoints promise ----

  /** The row states the digest and size of its bytes, and these bytes have that digest. */
  ghost predicate BytesMatch(loaded: Row, v: Verdict) {
    && loaded.size != None && v.Read? && loaded.sha256 == Some(v.actual)
    && |v.actual| == 64 && forall i :: 0 <= i < 64 ==> v.actual[i] in "0123456789abcdef"
  }

  /** Uploaded, perhaps verified, and valid at this time. */
  ghost predicate InUse(row: Row, now: int) {
    && (row.status == Uploaded || row.status == Unverified || row.status == Verified)
    && (forall end :: row.expires == Some(end) ==> now < end)
       && (forall start :: row.issued == Some(start) ==> start <= now)
  }

  /** The row after a check of its bytes: what was scanned, if anything was, and nothing of an earlier scan. */
  ghost predicate Stamped(before: Row, after: Row, target: Status, v: Verdict, now: int)
    requires v.Read?
  {
    && after == before.(status := target, checksum := Some(v.actual), version := v.version, scanSha := after.scanSha,
                        scannedAt := after.scannedAt, scanner := after.scanner, uploadedAt := after.uploadedAt,
                        updatedAt := now)
    && after.uploadedAt == (if target == Uploaded then Some(now) else before.uploadedAt)
    && match v.scan
       case None => after.scanSha == None && after.scannedAt == None && after.scanner == None
       case Some(scan) =>
         after.scanSha == Some(v.actual) && after.scannedAt == Some(scan.at) && after.scanner == Some(scan.scanner)
  }

  lemma HexMeans(s: string)
    ensures IsHex(s) <==> |s| == 64 && forall i :: 0 <= i < 64 ==> s[i] in "0123456789abcdef"
  {
    forall c: char ensures ('0' <= c <= '9' || 'a' <= c <= 'f') <==> c in "0123456789abcdef" {
      HexDigit(c);
    }
  }

  lemma HexDigit(c: char)
    ensures ('0' <= c <= '9' || 'a' <= c <= 'f') <==> c in "0123456789abcdef"
  {
    if '0' <= c <= '9' {
      assert c == "0123456789abcdef"[c as int - '0' as int];
    } else if 'a' <= c <= 'f' {
      assert c == "0123456789abcdef"[10 + c as int - 'a' as int];
    }
  }

  /** Finalizing and verifying write only what the bytes justify, to the row as loaded. */
  lemma FinishMeans(row: Row, loaded: Row, action: Action, v: Verdict, now: int)
    requires !v.Malware?
    ensures var r := Finish(row, loaded, action, v, now);
            var done := if action == Finalize then loaded.status != PendingUpload else loaded.status == Verified;
            && (r.Unchanged? <==> BytesMatch(loaded, v) && done && v.scan == None)
            && (r.Unchanged? ==> r.row == loaded)
            && (r.Written? <==>
                  && BytesMatch(loaded, v) && !(done && v.scan == None)
                  && InUse(if action == Finalize && loaded.status == PendingUpload then loaded.(status := Uploaded)
                           else loaded, now)
                  && row.updatedAt == loaded.updatedAt && row.status == loaded.status)
            && (r.Written? ==>
                  Stamped(row, r.row, if action == Verify || loaded.status == Verified then Verified
                          else Uploaded, v, now))
            && (r == Refused(HashMismatch) ==> v.Read? && loaded.sha256 != Some(v.actual))
  {
    if loaded.sha256.Some? {
      HexMeans(loaded.sha256.value);
    }
  }

  /** What may leave storage: in use, uploaded, and scanned clean by ClamAV, this version of these very bytes. */
  ghost predicate Releasable(row: Row, prefix: string, now: int) {
    && InUse(row, now) && row.uploadedAt != None
    && (exists size :: row.size == Some(size) && 1 <= size <= 104857600)
    && (exists sha: string :: && row.sha256 == Some(sha) && row.checksum == Some(sha) && row.scanSha == Some(sha)
                              && |sha| == 64 && forall i :: 0 <= i < 64 ==> sha[i] in "0123456789abcdef")
    && (exists at :: row.scannedAt == Some(at) && at <= now)
    && (exists scanner: string :: row.scanner == Some(scanner) && |scanner| >= 7 && scanner[..7] == "ClamAV ")
    && (exists version: string :: && row.version == Some(version) && version != "null"
                                  && exists i :: 0 <= i < |version| && !Blank(version[i]))
    && |prefix| <= |row.key| && row.key[..|prefix|] == prefix
  }

  lemma ReadyMeansReleasable(row: Row, prefix: string, now: int)
    ensures ReadyCode(row, prefix, now) == None <==> Releasable(row, prefix, now)
    ensures ReadyCode(row, prefix, now) in {Some(NotReady), Some(OutsideValidity)} ==> !InUse(row, now)
  {
    if row.sha256.Some? {
      HexMeans(row.sha256.value);
    }
  }

  class EvidenceObject {
    const prefix: string
    var row: Row

    /** `prefix` is where the object's key must lie: its organisation's evidence folder and its own id. */
    constructor (prefix: string, row: Row)
      ensures this.row == row && this.prefix == prefix
    {
      this.prefix := prefix;
      this.row := row;
    }

    /** Up to three attempts: only one under whose locks the links are still those it began with may write. */
    method RejectMalware(loaded: Row, links: seq<Links>, now: int) returns (code: Code)
      requires |links| == 3
      modifies this
      ensures (forall k :: 0 <= k < 3 ==> !SameLinks(links[k])) ==> code == LinksChangedRetry && row == old(row)
      ensures (exists k :: 0 <= k < 3 && SameLinks(links[k])) ==>
                && row == RowAfter(old(row), Reject(old(row), loaded, now))
                && if old(row).updatedAt == loaded.updatedAt && old(row).status == loaded.status
                   then code == MalwareDetected
                        && row == old(row).(status := Rejected, scanSha := None, scannedAt := None, scanner := None,
                                            updatedAt := now)
                   else code == ChangedRetry && row == old(row)
    {
      var attempt := 0;
      while attempt < 3
        invariant 0 <= attempt <= 3 && row == old(row)
        invariant forall k :: 0 <= k < attempt ==> !SameLinks(links[k])
      {
        if multiset(links[attempt].before) == multiset(links[attempt].locked) {
          if row.updatedAt != loaded.updatedAt || row.status != loaded.status {
            return ChangedRetry;
          }
          row := row.(status := Rejected, scanSha := None, scannedAt := None, scanner := None, updatedAt := now);
          return MalwareDetected;
        }
        attempt := attempt + 1;
      }
      code := LinksChangedRetry;
    }

    /** The part of `finalize` after the row was loaded and the bytes were read. */
    method FinishFinalize(loaded: Row, v: Verdict, now: int) returns (result: Result)
      requires !v.Malware?
      modifies this
      ensures result == Finish(old(row), loaded, Finalize, v, now)
      ensures row == RowAfter(old(row), result)
      ensures result.Written? ==>
                && BytesMatch(loaded, v) && old(row).updatedAt == loaded.updatedAt && old(row).status == loaded.status
                && Stamped(old(row), row, if loaded.status == Verified then Verified else Uploaded, v, now)
      ensures !result.Written? ==> row == old(row)
    {
      FinishMeans(row, loaded, Finalize, v, now);
      if loaded.sha256.None? || !IsHex(loaded.sha256.value) || loaded.size.None? {
        return Refused(MetadataRequired);
      }
      if v.Unreadable? {
        return Refused(StorageError);
      }
      if v.actual != loaded.sha256.value {
        return Refused(HashMismatch);
      }
      if loaded.status != PendingUpload && v.scan.None? {
        return Unchanged(loaded);
      }
      result := Set(loaded, if loaded.status == Verified then Verified else Uploaded, v, now);
    }

    method FinishVerify(loaded: Row, v: Verdict, now: int) returns (result: Result)
      requires !v.Malware?
      modifies this
      ensures result == Finish(old(row), loaded, Verify, v, now)
      ensures row == RowAfter(old(row), result)
      ensures result.Written? ==>
                && BytesMatch(loaded, v) && old(row).updatedAt == loaded.updatedAt && old(row).status == loaded.status
                && InUse(loaded, now) && Stamped(old(row), row, Verified, v, now)
      ensures !result.Written? ==> row == old(row)
    {
      FinishMeans(row, loaded, Verify, v, now);
      if loaded.sha256.None? || !IsHex(loaded.sha256.value) || loaded.size.None? {
        return Refused(MetadataRequired);
      }
      if v.Unreadable? {
        return Refused(StorageError);
      }
      if v.actual != loaded.sha256.value {
        return Refused(HashMismatch);
      }
      if loaded.status == Verified && v.scan.None? {
        return Unchanged(loaded);
      }
      result := Set(loaded, Verified, v, now);
    }

    method Set(loaded: Row, target: Status, v: Verdict, now: int) returns (result: Result)
      requires v.Read?
      modifies this
      ensures result == Transition(old(row), loaded, target, v, now)
      ensures row == RowAfter(old(row), result)
    {
      var code := CurrentCode(loaded, target == Uploaded, now);
      if code.Some? {
        return Refused(code.value);
      }
      if row.updatedAt != loaded.updatedAt || row.status != loaded.status {
        return Refused(ChangedRetry);
      }
      row := Checked(row, v).(status := target, updatedAt := now);
      if target == Uploaded {
        row := row.(uploadedAt := Some(now));
      }
      result := Written(row);
    }

    /**
     `reviewDownload`: the row as loaded at `loadedAt`, the object's head, then the row
     under its lock at `now`. A link is issued exactly when every check passes, for the
     longest whole number of seconds, up to sixty, that the evidence is still valid.
     */
    method IssueDownload(loaded: Row, loadedAt: int, head: Option<Head>, now: int, signed: bool)
      returns (result: Download)
      ensures result.Issued? <==>
                && Releasable(loaded, prefix, loadedAt) && Releasable(row, prefix, now)
                && head == Some(Head(loaded.version, loaded.size, loaded.sha256))
                && row.updatedAt == loaded.updatedAt && row.version == loaded.version && row.sha256 == loaded.sha256
                && row.key == loaded.key
                && (row.expires.Some? ==> now + 1000 <= row.expires.value) && signed
      ensures result.Issued? ==>
                && 1 <= result.seconds <= 60
                && (row.expires.Some? ==> now + 1000 * result.seconds <= row.expires.value)
                && (result.seconds < 60 ==> row.expires.Some? && row.expires.value < now + 1000 * (result.seconds + 1))
      ensures result == NoDownload(VersionMismatch) <==>
                ReadyCode(loaded, prefix, loadedAt).None? && head.Some? && !HeadMatches(head.value, loaded)
      ensures result == NoDownload(ChangedRetry) <==>
                && ReadyCode(loaded, prefix, loadedAt).None? && head.Some? && HeadMatches(head.value, loaded)
                && ReadyCode(row, prefix, now).None? && !SameObject(row, loaded)
      ensures result in {NoDownload(NotReady), NoDownload(DownloadNotReady)} ==>
                !Releasable(loaded, prefix, loadedAt) || !Releasable(row, prefix, now)
    {
      ReadyMeansReleasable(loaded, prefix, loadedAt);
      ReadyMeansReleasable(row, prefix, now);
      var code := ReadyCode(loaded, prefix, loadedAt);
      if code.Some? {
        return NoDownload(code.value);
      }
      if head.None? {
        return NoDownload(DownloadUnavailable);
      }
      if head.value.version != loaded.version || head.value.length != loaded.size
          || head.value.sha256 != loaded.sha256 {
        return NoDownload(VersionMismatch);
      }
      code := ReadyCode(row, prefix, now);
      if code.Some? {
        return NoDownload(code.value);
      }
      if row.updatedAt != loaded.updatedAt || row.version != loaded.version || row.sha256 != loaded.sha256
          || row.key != loaded.key {
        return NoDownload(ChangedRetry);
      }
      var n := 60;
      if row.expires.Some? {
        var left := (row.expires.value - now) / 1000;
        if left < 60 {
          n := left;
        }
      }
      if n < 1 {
        return NoDownload(OutsideValidity);
      }
      if !signed {
        return NoDownload(DownloadUnavailable);
      }
      result := Issued(n);
    }
  }

  predicate HeadMatches(head: Head, loaded: Row) {
    head.version == loaded.version && head.length == loaded.size && head.sha256 == loaded.sha256
  }

  predicate SameObject(row: Row, loaded: Row) {
    row.updatedAt == loaded.updatedAt && row.version == loaded.version && row.sha256 == loaded.sha256
        && row.key == loaded.key
  }

  /** `assertReviewDownloadReady`: the first of its two reasons. */
  function ReadyCode(row: Row, prefix: string, now: int): (r: Option<Code>)
    ensures r != Some(ChangedRetry) && r != Some(VersionMismatch)
    ensures r.None? <==> CurrentCode(row, false, now).None? && DownloadReady(row, prefix, now)
  {
    if CurrentCode(row, false, now).Some? then CurrentCode(row, false, now)
    else if !DownloadReady(row, prefix, now) then Some(DownloadNotReady)
    else None
  }

  /** Finalized, and scanned clean in an immutable version of its own object. */
  predicate DownloadReady(row: Row, prefix: string, now: int) {
    && row.uploadedAt.Some? && row.sha256.Some? && IsHex(row.sha256.value)
    && row.size.Some? && 0 < row.size.value <= 100 * 1024 * 1024
    && row.checksum == row.sha256 && row.scanSha == row.sha256
    && row.scannedAt.Some? && row.scannedAt.value <= now && row.scanner.Some? && "ClamAV " <= row.scanner.value
    && row.version.Some? && NotBlank(row.version.value) && row.version.value != "null"
    && prefix <= row.key
  }

  // ---- any interleaving ----

  /** A request that has loaded the row and is reading bytes. */
  datatype Job = Job(action: Action, loaded: Row)

  datatype State = State(now: int, row: Row, jobs: map<Id, Job>)

  datatype Step =
    | Tick(later: int)
    | Load(job: Id, action: Action)
    | Complete(job: Id, verdict: Verdict)

  predicate Enabled(s: State, step: Step) {
    match step
    case Tick(later) => s.now <= later
    case Load(j, action) => j !in s.jobs && CurrentCode(s.row, action == Finalize, s.now).None?
    case Complete(j, v) => j in s.jobs && Reported(v)
  }

  function Apply(s: State, step: Step): State
    requires Enabled(s, step)
  {
    match step
    case Tick(later) => s.(now := later)
    case Load(j, action) => s.(jobs := s.jobs[j := Job(action, s.row)])
    case Complete(j, v) =>
      s.(row := RowAfter(s.row, Finish(s.row, s.jobs[j].loaded, s.jobs[j].action, v, s.now)), jobs := s.jobs - {j})
  }

  /** The row `createUpload` inserts. */
  predicate IsNew(row: Row) {
    && row.status == PendingUpload && row.sha256.Some? && IsHex(row.sha256.value) && row.size.Some?
    && row.checksum.None? && row.scanSha.None? && row.scannedAt.None? && row.uploadedAt.None?
  }

  predicate IsRun(states: seq<State>, steps: seq<Step>) {
    && |states| == |steps| + 1
    && IsNew(states[0].row) && states[0].jobs == map[]
    && forall i :: 0 <= i < |steps| ==> Enabled(states[i], steps[i]) && states[i + 1] == Apply(states[i], steps[i])
  }

  /** Uploaded and verified rows carry the checksum of bytes whose digest is the row's. */
  predicate RowInv(row: Row) {
    && row.status != Unverified && row.status != Superseded
    && row.sha256.Some? && row.sha256.value != ""
    && (row.status == Uploaded || row.status == Verified ==> row.checksum == row.sha256)
  }

  predicate Inv(s: State) {
    && RowInv(s.row)
    && forall j :: j in s.jobs ==>
         && RowInv(s.jobs[j].loaded)
         && s.jobs[j].loaded.sha256 == s.row.sha256 && s.jobs[j].loaded.size == s.row.size
         && (s.jobs[j].action == Verify ==> s.jobs[j].loaded.status != PendingUpload)
         && s.jobs[j].loaded.status != Rejected
  }

  /** The moves a row can make. */
  predicate Moves(a: Row, b: Row) {
    && b.sha256 == a.sha256 && b.size == a.size && b.issued == a.issued && b.expires == a.expires
    && match a.status
       case PendingUpload => b == a || b.status == Uploaded || b.status == Rejected
       case Uploaded => b == a || b.status == Uploaded || b.status == Verified || b.status == Rejected
       case Verified => b == a || (b.status == Verified && Scanned(b)) || b.status == Rejected
       case _ => b == a
  }

  lemma StepMoves(s: State, step: Step)
    requires Inv(s) && Enabled(s, step)
    ensures Inv(Apply(s, step)) && Moves(s.row, Apply(s, step).row)
  {
    if step.Complete? {
      var job := s.jobs[step.job];
      assert RowInv(job.loaded);
    }
  }

  lemma {:induction false} RunInv(states: seq<State>, steps: seq<Step>, n: nat)
    requires IsRun(states, steps) && n < |states|
    ensures Inv(states[n])
  {
    hide Apply;
    if n > 0 {
      RunInv(states, steps, n - 1);
      StepMoves(states[n - 1], steps[n - 1]);
    }
  }

  /**
   Whatever requests overlap and however long their byte checks take: rejected is
   final, verified changes only to rejected or to itself with a fresh clean scan,
   and a pending row is never verified without having been uploaded.
   */
  lemma StatusOnlyMovesOn(states: seq<State>, steps: seq<Step>, n: nat)
    requires IsRun(states, steps) && n + 1 < |states|
    ensures Moves(states[n].row, states[n + 1].row)
    ensures states[n].row.status == Rejected ==> states[n + 1].row == states[n].row
    ensures states[n].row.status == Verified ==> states[n + 1].row.status in {Verified, Rejected}
    ensures states[n].row.status == PendingUpload ==> states[n + 1].row.status != Verified
  {
    hide Apply;
    RunInv(states, steps, n);
    StepMoves(states[n], steps[n]);
  }

  /** Rejection is absorbing over whole runs. */
  lemma {:induction false} RejectedForever(states: seq<State>, steps: seq<Step>, m: nat, n: nat)
    requires IsRun(states, steps) && m <= n < |states| && states[m].row.status == Rejected
    ensures states[n].row == states[m].row
    decreases n
  {
    hide Apply;
    if m < n {
      RejectedForever(states, steps, m, n - 1);
      StatusOnlyMovesOn(states, steps, n - 1);
    }
  }

  /** Every uploaded or verified row carries the checksum of bytes that matched its digest. */
  lemma StoredBytesMatched(states: seq<State>, steps: seq<Step>, n: nat)
    requires IsRun(states, steps) && n < |states|
    ensures states[n].row.status == Uploaded || states[n].row.status == Verified ==>
              states[n].row.sha256.Some? && states[n].row.checksum == states[n].row.sha256
  {
    RunInv(states, steps, n);
  }

  // ---- what the passport aggregate sees ----

  function StatusSeen(s: Status): PT.EvidenceStatus {
    match s
    case PendingUpload => PT.PendingUpload
    case Uploaded => PT.Uploaded
    case Unverified => PT.Unverified
    case Verified => PT.Verified
    case Rejected => PT.RejectedEvidence
    case Superseded => PT.SupersededEvidence
  }

  function Seen(row: Row): PT.Evidence {
    PT.Evidence(StatusSeen(row.status), row.issued, row.expires, Scanned(row))
  }

  /** What the aggregate calls scanned: a scan of these bytes, at a stated time, by a named scanner, in a version. */
  lemma SeenMeans(row: Row)
    ensures Seen(row).scanned <==>
            && (exists sha :: sha != "" && row.sha256 == Some(sha) && row.scanSha == Some(sha))
            && row.scannedAt != None && row.scanner !in {None, Some("")} && row.version !in {None, Some("")}
    ensures Seen(row).issued == row.issued && Seen(row).expires == row.expires
    ensures Seen(row).status == PT.Verified <==> row.status == Verified
    ensures Seen(row).status == PT.RejectedEvidence <==> row.status == Rejected
  {
  }

  /**
   Every write of a run is one the aggregate allows for: a rejection, or a move it proves harmless
   to published passports.
   */
  lemma WritesAreAggregateMoves(states: seq<State>, steps: seq<Step>, n: nat)
    requires IsRun(states, steps) && n + 1 < |states| && states[n + 1].row != states[n].row
    ensures var a, b := Seen(states[n].row), Seen(states[n + 1].row);
            (b.status == PT.RejectedEvidence && !PS.Unusable(a.status)) || PS.EvidenceMoves(a, b)
  {
    hide Apply;
    RunInv(states, steps, n);
    StatusOnlyMovesOn(states, steps, n);
  }
}
