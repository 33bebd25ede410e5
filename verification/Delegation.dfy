/**
 Delegated transactions against revocation: the guard that picks a grant, the
 transaction that locks and rereads it, and the revocation that may come at any
 time between.
 */
module Delegation {
  import opened Prelude
  import opened CanonicalJson

  type Id = nat

  const SCOPES: set<string> := {
    "organisationRead", "organisationWrite", "modelRead", "modelWrite", "applicabilityReview",
    "itemRead", "itemWrite", "valueRead", "valueWrite", "valueReview",
    "evidenceRead", "evidenceWrite", "evidenceReview", "evidenceExtract",
    "supplierRead", "supplierWrite", "supplierReview", "complianceRead",
    "passportRead", "passportValidate", "passportPublish", "passportExport",
    "lifecycleRead", "lifecycleWrite", "accessGrantWrite",
    "registryRead", "registryPrepare", "registrySubmit"}

  /**
   A written authorisation and the digest of its signed document; `revoked` is set once a
   revocation has committed.
   */
  datatype Grant = Grant(
    responsible: Id, provider: Id, scope: Json, document: string, from: int, until: Option<int>, revoked: Option<int>)

  /** A stored evidence object, as far as authorising reads it. */
  datatype Document = Document(org: Id, verified: bool, sha256: Option<string>)

  /** What the guard puts on the request. */
  datatype Delegated = Delegated(grant: Id, provider: Id, responsible: Id, scope: string)

  // ---- scopes ----

  /** `isAuthorisationScopeRecord` */
  predicate ScopeRecord(v: Json) {
    && v.Obj? && v.members != []
    && (exists i :: 0 <= i < |v.members| && v.members[i].value == Bool(true))
    && (forall i :: 0 <= i < |v.members| ==> v.members[i].key in SCOPES && v.members[i].value.Bool?)
  }

  /** An object of known scopes and booleans, one of them true. */
  ghost predicate GrantsSomething(v: Json) {
    && v.Obj? && (exists scope :: Member(scope, Bool(true)) in v.members)
    && forall m :: m in v.members ==> m.key in SCOPES && (m.value == Bool(true) || m.value == Bool(false))
  }

  lemma RecordMeans(v: Json)
    ensures ScopeRecord(v) <==> GrantsSomething(v)
  {
    if ScopeRecord(v) {
      var i :| 0 <= i < |v.members| && v.members[i].value == Bool(true);
      assert v.members[i] == Member(v.members[i].key, Bool(true));
    }
  }

  /** `permitsAuthorisationScope` */
  predicate Permits(v: Json, scope: string) {
    ScopeRecord(v) && Member(scope, Bool(true)) in v.members
  }

  /** The database filter `scopeJson[scope] = true`. */
  predicate Names(v: Json, scope: string) {
    v.Obj? && Member(scope, Bool(true)) in v.members
  }

  /** Nothing malformed or unknown ever grants anything, and the filter alone would not be enough. */
  lemma PermissionIsExplicit(v: Json, scope: string)
    ensures Permits(v, scope) ==> scope in SCOPES && Names(v, scope)
    ensures Names(v, scope) && ScopeRecord(v) <==> Permits(v, scope)
    ensures Permits(v, scope) <==>
              && v.Obj? && Member(scope, Bool(true)) in v.members
              && forall m :: m in v.members ==> m.key in SCOPES && (m.value == Bool(true) || m.value == Bool(false))
  {
    if Permits(v, scope) {
      var i :| 0 <= i < |v.members| && v.members[i] == Member(scope, Bool(true));
    }
  }

  predicate InDate(g: Grant, now: int) {
    g.from <= now && (g.until.Some? ==> g.until.value > now)
  }

  /** The conditions both queries select by, and the check on the record that follows them. */
  predicate Active(g: Grant, d: Delegated, now: int) {
    && g.responsible == d.responsible && g.provider == d.provider
    && g.revoked.None? && InDate(g, now) && Permits(g.scope, d.scope)
  }

  // ---- the programs ----

  /** The guard's choice: the active grant with the least id. */
  ghost predicate Selected(grants: map<Id, Grant>, provider: Id, responsible: Id, scope: string, now: int,
                           pick: Option<Id>) {
    match pick
    case Some(g) =>
      && g in grants && Active(grants[g], Delegated(g, provider, responsible, scope), now)
      && forall h :: h in grants && Active(grants[h], Delegated(h, provider, responsible, scope), now) ==> g <= h
    case None => forall h :: h in grants ==> !Active(grants[h], Delegated(h, provider, responsible, scope), now)
  }

  /** What an authorisation promises, said of the moment: a time before its end, if it has one, and a scope it names. */
  ghost predicate Stands(g: Grant, provider: Id, responsible: Id, scope: string, at: int) {
    && g.provider == provider && g.responsible == responsible && g.revoked == None
    && g.from <= at && (forall end :: g.until == Some(end) ==> at < end)
    && g.scope.Obj? && Member(scope, Bool(true)) in g.scope.members
    && forall m :: m in g.scope.members ==> m.key in SCOPES && (m.value == Bool(true) || m.value == Bool(false))
  }

  lemma StandsIsActive(g: Grant, d: Delegated, at: int)
    ensures Stands(g, d.provider, d.responsible, d.scope, at) <==> Active(g, d, at)
  {
    PermissionIsExplicit(g.scope, d.scope);
  }

  /** `Other` is any row the work itself writes. */
  datatype Audit = Scoped(grant: Id, scope: string, provider: Id) | Created(grant: Id) | Revoked(grant: Id)
      | Other(action: string)

  function ScopedRow(d: Delegated): Audit {
    Scoped(d.grant, d.scope, d.provider)
  }

  datatype Outcome = Committed | NoAuthorisation | TenantMismatch | WorkFailed

  datatype Code = Stored | Forbidden | BadScope | InvalidInterval | SelfAuthorisation | NotFound | EvidenceRequired

  /** `create`: the first of its checks that fails. */
  function CreateCode(evidence: map<Id, Document>, actor: Id, org: Id, provider: Id, proof: Id, scope: Json, from: int,
                      until: Option<int>): Code
  {
    if actor != org then Forbidden
    else if !ScopeRecord(scope) then BadScope
    else if until.Some? && until.value <= from then InvalidInterval
    else if provider == org then SelfAuthorisation
    else if proof !in evidence || evidence[proof].org != org then NotFound
    else if !evidence[proof].verified || evidence[proof].sha256.None? || evidence[proof].sha256.value == ""
        then EvidenceRequired
    else Stored
  }

  /** How `run` ends. */
  function RunOutcome(grants: map<Id, Grant>, org: Id, d: Option<Delegated>, now: int, workOk: bool): Outcome {
    if d.Some? && org != d.value.provider && org != d.value.responsible then TenantMismatch
    else if d.Some? && org != d.value.provider
            && !(d.value.grant in grants && Active(grants[d.value.grant], d.value, now)) then NoAuthorisation
    else if !workOk then WorkFailed
    else Committed
  }

  class AuthorisationDb {
    var grants: map<Id, Grant>
    var evidence: map<Id, Document>
    var audits: seq<Audit>

    constructor (evidence: map<Id, Document>)
      ensures grants == map[] && audits == [] && this.evidence == evidence
    {
      this.evidence := evidence;
      grants, audits := map[], [];
    }

    /** `canActivate`: reads every active grant in id order and takes the first whose record permits the scope. */
    method Guard(provider: Id, responsible: Id, scope: string, now: int) returns (pick: Option<Id>)
      ensures Selected(grants, provider, responsible, scope, now, pick)
      // The grant picked is this pair's, not revoked, begun and not over, and names the scope.
      ensures pick.Some? ==> pick.value in grants && Stands(grants[pick.value], provider, responsible, scope, now)
      ensures forall h :: h in grants && Stands(grants[h], provider, responsible, scope, now) ==>
                pick.Some? && pick.value <= h
    {
      forall h | h in grants
        ensures Stands(grants[h], provider, responsible, scope, now) <==>
                Active(grants[h], Delegated(h, provider, responsible, scope), now)
      {
        StandsIsActive(grants[h], Delegated(h, provider, responsible, scope), now);
      }
      pick := None;
      var todo := grants.Keys;
      while todo != {}
        invariant todo <= grants.Keys
        invariant pick.Some? ==>
                  pick.value in grants && Active(grants[pick.value],
                                                 Delegated(pick.value, provider, responsible, scope), now)
        invariant forall h ::
                    h in grants && h !in todo && Active(grants[h], Delegated(h, provider, responsible, scope), now) ==>
                      pick.Some? && pick.value <= h
        decreases todo
      {
        var g :| g in todo;
        if Active(grants[g], Delegated(g, provider, responsible, scope), now) && (pick.None? || g < pick.value) {
          pick := Some(g);
        }
        todo := todo - {g};
      }
    }

    /** `create`: a stored grant names the digest of its own tenant's verified document. */
    method Create(id: Id, actor: Id, org: Id, provider: Id, proof: Id, scope: Json, from: int, until: Option<int>)
      returns (code: Code)
      requires id !in grants
      modifies this`grants, this`audits
      ensures code == CreateCode(evidence, actor, org, provider, proof, scope, from, until)
      ensures code != Stored ==> grants == old(grants) && audits == old(audits)
      ensures code == Stored ==>
                && proof in evidence && evidence[proof].org == org && evidence[proof].sha256.Some?
                && grants == old(grants)[id := Grant(org, provider, scope, evidence[proof].sha256.value, from, until,
                                                     None)]
                && audits == old(audits) + [Created(id)]
      ensures code == Stored <==>
                && actor == org && provider != org && (forall end :: until == Some(end) ==> from < end)
                && GrantsSomething(scope)
                && proof in evidence && evidence[proof].org == org && evidence[proof].verified
                && evidence[proof].sha256 !in {None, Some("")}
    {
      RecordMeans(scope);
      if actor != org {
        return Forbidden;
      }
      if !ScopeRecord(scope) {
        return BadScope;
      }
      if until.Some? && until.value <= from {
        return InvalidInterval;
      }
      if provider == org {
        return SelfAuthorisation;
      }
      if proof !in evidence || evidence[proof].org != org {
        return NotFound;
      }
      var document := evidence[proof];
      if !document.verified || document.sha256.None? || document.sha256.value == "" {
        return EvidenceRequired;
      }
      grants := grants[id := Grant(org, provider, scope, document.sha256.value, from, until, None)];
      audits := audits + [Created(id)];
      code := Stored;
    }

    /** `revoke`: only the responsible operator's grant, again even if it was revoked before. */
    method Revoke(id: Id, actor: Id, org: Id, now: int) returns (code: Code)
      modifies this`grants, this`audits
      ensures code == if actor != org then Forbidden
                      else if id !in old(grants) || old(grants)[id].responsible != org then NotFound else Stored
      ensures grants == if code == Stored then old(grants)[id := old(grants)[id].(revoked := Some(now))]
              else old(grants)
      ensures audits == old(audits) + if code == Stored then [Revoked(id)] else []
    {
      if actor != org {
        return Forbidden;
      }
      if id !in grants || grants[id].responsible != org {
        return NotFound;
      }
      grants := grants[id := grants[id].(revoked := Some(now))];
      audits := audits + [Revoked(id)];
      code := Stored;
    }

    /**
     `run`: lock, reread, work (`None` if it throws, else the rows it writes), audit. The row does
     not change while the lock is held, so one reading of it stands for both.
     */
    method Run(org: Id, d: Option<Delegated>, now: int, work: Option<seq<Audit>>) returns (outcome: Outcome)
      modifies this`audits
      ensures outcome == RunOutcome(grants, org, d, now, work.Some?)
      ensures outcome != Committed ==> audits == old(audits)
      ensures outcome == Committed ==>
                audits == old(audits) + work.value +
                          if d.Some? && org == d.value.responsible
                          then [Scoped(d.value.grant, d.value.scope, d.value.provider)] else []
      // On the other tenant nothing is done unless the grant stands now; if it does, only the work itself can fail.
      ensures d.Some? && org != d.value.provider && outcome == Committed ==>
                && org == d.value.responsible && d.value.grant in grants
                && Stands(grants[d.value.grant], d.value.provider, d.value.responsible, d.value.scope, now)
      ensures d.Some? && org != d.value.provider && org != d.value.responsible ==> outcome == TenantMismatch
      ensures d.None? || org == d.value.provider ==> outcome == if work.Some? then Committed else WorkFailed
      ensures d.Some? && org == d.value.responsible && org != d.value.provider && d.value.grant in grants
              && Stands(grants[d.value.grant], d.value.provider, d.value.responsible, d.value.scope, now) ==>
                outcome == if work.Some? then Committed else WorkFailed
    {
      if d.Some? && d.value.grant in grants {
        StandsIsActive(grants[d.value.grant], d.value, now);
      }
      if d.Some? && org != d.value.provider && org != d.value.responsible {
        return TenantMismatch;
      }
      if d.Some? && org != d.value.provider {
        var id := d.value.grant;
        if id !in grants || grants[id].responsible != org || grants[id].provider != d.value.provider {
          return NoAuthorisation;
        }
        var g := grants[id];
        if g.revoked.Some? || g.from > now || (g.until.Some? && g.until.value <= now) || !Names(g.scope, d.value.scope)
           || !Permits(g.scope, d.value.scope) {
          return NoAuthorisation;
        }
      }
      if work.None? {
        return WorkFailed;
      }
      audits := audits + work.value;
      if d.Some? && org == d.value.responsible {
        audits := audits + [ScopedRow(d.value)];
      }
      outcome := Committed;
    }
  }

  // ---- any interleaving ----

  /**
   A transaction on the responsible tenant: begun, lock held, grant rechecked and work under way,
   or its audit row written.
   */
  datatype Phase =
    | Begun
    | Locked(lockedAt: nat)
    | Working(lockedAt: nat, checked: int)
    | Audited(lockedAt: nat, checked: int)

  /** `pending` holds the audit rows the transaction has inserted and not committed. */
  datatype Tx = Tx(d: Delegated, phase: Phase, pending: seq<Audit>)

  /** A revocation that holds the grant's exclusive lock, with its uncommitted audit rows. */
  datatype Revocation = Revocation(grant: Id, pending: seq<Audit>)

  /** A committed delegated transaction, with the steps at which it locked and committed. */
  datatype Entry = Entry(tx: Id, d: Delegated, lockedAt: nat, checked: int, committedAt: nat)

  /** `clock` counts steps; `ended` logs committed revocations; `audits` holds committed rows. */
  datatype State = State(
    now: int, clock: nat, grants: map<Id, Grant>, requests: set<Delegated>, txs: map<Id, Tx>,
    revoking: map<Id, Revocation>, committed: seq<Entry>, ended: seq<(Id, nat)>, audits: seq<Audit>)

  datatype Step =
    | Tick(later: int)
    | AddGrant(grant: Id, row: Grant)
    | PassGuard(d: Delegated)
    | Begin(tx: Id, d: Delegated)
    | LockGrant(tx: Id)
    | Recheck(tx: Id)
    | Work(tx: Id, action: string)
    | WriteAudit(tx: Id)
    | Commit(tx: Id)
    | GiveUp(tx: Id)
    | StartRevoking(tx: Id, grant: Id)
    | WriteRevocation(tx: Id)
    | CommitRevocation(tx: Id)
    | AbandonRevocation(tx: Id)

  predicate SharesLock(tx: Tx, grant: Id) {
    tx.d.grant == grant && !tx.phase.Begun?
  }

  ghost predicate Enabled(s: State, step: Step) {
    match step
    case Tick(later) => s.now <= later
    case AddGrant(g, row) => g !in s.grants && row.revoked.None? && row.provider != row.responsible
    case PassGuard(d) => Selected(s.grants, d.provider, d.responsible, d.scope, s.now, Some(d.grant))
    case Begin(t, d) => t !in s.txs && t !in s.revoking && d in s.requests
    case LockGrant(t) =>
      && t in s.txs && s.txs[t].phase.Begun? && s.txs[t].d.grant in s.grants
      && forall v :: v in s.revoking ==> s.revoking[v].grant != s.txs[t].d.grant
    case Recheck(t) => t in s.txs && s.txs[t].phase.Locked? && s.txs[t].d.grant in s.grants
    case Work(t, _) => t in s.txs && s.txs[t].phase.Working?
    case WriteAudit(t) => t in s.txs && s.txs[t].phase.Working?
    case Commit(t) => t in s.txs && s.txs[t].phase.Audited?
    case GiveUp(t) => t in s.txs
    case StartRevoking(v, g) =>
      && v !in s.txs && v !in s.revoking && g in s.grants
      && (forall t :: t in s.txs ==> !SharesLock(s.txs[t], g))
      && (forall u :: u in s.revoking ==> s.revoking[u].grant != g)
    case WriteRevocation(v) => v in s.revoking && s.revoking[v].pending == []
    case CommitRevocation(v) => v in s.revoking && s.revoking[v].pending != [] && s.revoking[v].grant in s.grants
    case AbandonRevocation(v) => v in s.revoking
  }

  ghost function Moved(s: State, step: Step): State
    requires Enabled(s, step)
  {
    match step
    case Tick(later) => s.(now := later)
    case AddGrant(g, row) => s.(grants := s.grants[g := row], audits := s.audits + [Created(g)])
    case PassGuard(d) => s.(requests := s.requests + {d})
    case Begin(t, d) => s.(txs := s.txs[t := Tx(d, Begun, [])])
    case LockGrant(t) => s.(txs := s.txs[t := s.txs[t].(phase := Locked(s.clock))])
    case Recheck(t) =>
      var tx := s.txs[t];
      if Active(s.grants[tx.d.grant], tx.d, s.now)
          then s.(txs := s.txs[t := tx.(phase := Working(tx.phase.lockedAt, s.now))])
      else s.(txs := s.txs - {t})
    case Work(t, action) => s.(txs := s.txs[t := s.txs[t].(pending := s.txs[t].pending + [Other(action)])])
    case WriteAudit(t) =>
      var tx := s.txs[t];
      s.(txs := s.txs[t := tx.(phase := Audited(tx.phase.lockedAt, tx.phase.checked),
                               pending := tx.pending + [ScopedRow(tx.d)])])
    case Commit(t) =>
      var tx := s.txs[t];
      s.(txs := s.txs - {t}, committed := s.committed + [Entry(t, tx.d, tx.phase.lockedAt, tx.phase.checked, s.clock)],
         audits := s.audits + tx.pending)
    case GiveUp(t) => s.(txs := s.txs - {t})
    case StartRevoking(v, g) => s.(revoking := s.revoking[v := Revocation(g, [])])
    case WriteRevocation(v) =>
        s.(revoking := s.revoking[v := s.revoking[v].(pending := [Revoked(s.revoking[v].grant)])])
    case CommitRevocation(v) =>
      var g := s.revoking[v].grant;
      s.(grants := s.grants[g := s.grants[g].(revoked := Some(s.now))], revoking := s.revoking - {v},
         ended := s.ended + [(g, s.clock)], audits := s.audits + s.revoking[v].pending)
    case AbandonRevocation(v) => s.(revoking := s.revoking - {v})
  }

  ghost function Apply(s: State, step: Step): State
    requires Enabled(s, step)
  {
    Moved(s, step).(clock := s.clock + 1)
  }

  const START := State(0, 0, map[], {}, map[], map[], [], [], [])

  ghost predicate IsRun(states: seq<State>, steps: seq<Step>) {
    && |states| == |steps| + 1
    && states[0] == START
    && forall i :: 0 <= i < |steps| ==> Enabled(states[i], steps[i]) && states[i + 1] == Apply(states[i], steps[i])
  }

  /** The grant's terms, which no step changes once it exists. */
  predicate Allows(g: Grant, d: Delegated, at: int) {
    g.responsible == d.responsible && g.provider == d.provider && InDate(g, at) && Permits(g.scope, d.scope)
  }

  predicate TxInv(s: State, tx: Tx) {
    && tx.d.provider != tx.d.responsible
    && (!tx.phase.Begun? ==>
          && tx.d.grant in s.grants && tx.phase.lockedAt < s.clock
          && (forall v :: v in s.revoking ==> s.revoking[v].grant != tx.d.grant)
          && (forall k :: 0 <= k < |s.ended| ==> s.ended[k].0 == tx.d.grant ==> s.ended[k].1 < tx.phase.lockedAt))
    && (tx.phase.Working? || tx.phase.Audited? ==>
        Allows(s.grants[tx.d.grant], tx.d, tx.phase.checked) && s.grants[tx.d.grant].revoked.None?)
  }

  predicate EntryInv(s: State, e: Entry) {
    && e.d.grant in s.grants && Allows(s.grants[e.d.grant], e.d, e.checked)
    && e.lockedAt < e.committedAt < s.clock
    && forall k :: 0 <= k < |s.ended| ==> s.ended[k].0 == e.d.grant ==> e.committedAt < s.ended[k].1
  }

  /** A revocation is in the log exactly when the row says so. */
  predicate RevocationInv(s: State, g: Id) {
    g in s.grants ==> (s.grants[g].revoked.Some? <==> exists k :: 0 <= k < |s.ended| && s.ended[k].0 == g)
  }

  // ---- audit rows ----

  predicate IsScoped(a: Audit) { a.Scoped? }

  predicate IsRevoked(a: Audit) { a.Revoked? }

  /** The rows of one kind, in order. */
  function Only(audits: seq<Audit>, kind: Audit -> bool): seq<Audit> {
    if audits == [] then []
    else
      var last := audits[|audits| - 1];
      Only(audits[..|audits| - 1], kind) + if kind(last) then [last] else []
  }

  lemma {:induction false} OnlyAppends(a: seq<Audit>, b: seq<Audit>, kind: Audit -> bool)
    ensures Only(a + b, kind) == Only(a, kind) + Only(b, kind)
    decreases |b|
  {
    if b == [] {
      assert a + b == a;
    } else {
      var front, last := b[..|b| - 1], b[|b| - 1];
      assert (a + b)[..|a + b| - 1] == a + front;
      OnlyAppends(a, front, kind);
    }
  }

  function EntryRows(committed: seq<Entry>): seq<Audit> {
    seq(|committed|, k requires 0 <= k < |committed| => ScopedRow(committed[k].d))
  }

  function EndedRows(ended: seq<(Id, nat)>): seq<Audit> {
    seq(|ended|, k requires 0 <= k < |ended| => Revoked(ended[k].0))
  }

  /**
   The committed rows of each kind are those of the committed transactions, in order; no
   transaction holds a row too many.
   */
  ghost predicate AuditInv(s: State) {
    && Only(s.audits, IsScoped) == EntryRows(s.committed)
    && Only(s.audits, IsRevoked) == EndedRows(s.ended)
    && (forall t :: t in s.txs ==> PendingInv(s.txs[t]))
    && (forall v :: v in s.revoking ==>
        s.revoking[v].pending == [] || s.revoking[v].pending == [Revoked(s.revoking[v].grant)])
  }

  ghost predicate PendingInv(tx: Tx) {
    && Only(tx.pending, IsScoped) == (if tx.phase.Audited? then [ScopedRow(tx.d)] else [])
    && Only(tx.pending, IsRevoked) == []
  }

  predicate TablesInv(s: State) {
    && (forall g :: g in s.grants ==> s.grants[g].provider != s.grants[g].responsible)
    && (forall d :: d in s.requests ==> d.provider != d.responsible && d.grant in s.grants)
    && (forall v :: v in s.revoking ==> s.revoking[v].grant in s.grants)
    && (forall k :: 0 <= k < |s.ended| ==> s.ended[k].0 in s.grants && s.ended[k].1 < s.clock)
  }

  ghost predicate Inv(s: State) {
    && TablesInv(s) && AuditInv(s)
    && (forall t :: t in s.txs ==> TxInv(s, s.txs[t]))
    && (forall k :: 0 <= k < |s.committed| ==> EntryInv(s, s.committed[k]))
    && (forall g :: RevocationInv(s, g))
  }

  lemma StepKeepsTables(s: State, step: Step)
    requires TablesInv(s) && Enabled(s, step)
    ensures TablesInv(Apply(s, step))
  {
    hide Permits, ScopeRecord, ScopedRow;
    var after := Apply(s, step);
    forall d | d in after.requests ensures d.provider != d.responsible && d.grant in after.grants {
      assert d in s.requests || (d.grant in s.grants && s.grants[d.grant].provider == d.provider);
    }
  }

  lemma OnlyOne(a: Audit, kind: Audit -> bool)
    ensures Only([a], kind) == if kind(a) then [a] else []
  {
    assert [a][..0] == [];
  }

  lemma EmptyOnly()
    ensures Only([], IsScoped) == [] && Only([], IsRevoked) == []
  {
  }

  lemma StepKeepsPending(s: State, step: Step, t: Id)
    requires Inv(s) && Enabled(s, step) && t in Apply(s, step).txs
    ensures PendingInv(Apply(s, step).txs[t])
  {
    hide TablesInv, TxInv, EntryInv, RevocationInv, Active, EntryRows, EndedRows, Selected, Only;
    assert t in s.txs ==> PendingInv(s.txs[t]);
    if step.Work? && step.tx == t {
      RowKeepsRows(s.txs[t].pending, Other(step.action));
    } else if step.WriteAudit? && step.tx == t {
      RowKeepsRows(s.txs[t].pending, ScopedRow(s.txs[t].d));
    } else if step.Begin? && step.tx == t {
      EmptyOnly();
    }
  }

  /** A commit moves exactly its own pending rows into the log. */
  lemma CommitKeepsRows(s: State, t: Id)
    requires Inv(s) && Enabled(s, Commit(t))
    ensures var after := Apply(s, Commit(t));
            && Only(after.audits, IsScoped) == EntryRows(after.committed)
            && Only(after.audits, IsRevoked) == EndedRows(after.ended)
  {
    hide Only, TablesInv, TxInv, EntryInv, RevocationInv, Active;
    var tx := s.txs[t];
    assert PendingInv(tx);
    OnlyAppends(s.audits, tx.pending, IsScoped);
    OnlyAppends(s.audits, tx.pending, IsRevoked);
  }

  /** So does a committed revocation, or the creation of a grant. */
  lemma RowKeepsRows(audits: seq<Audit>, row: Audit)
    ensures Only(audits + [row], IsScoped) == Only(audits, IsScoped) + if row.Scoped? then [row] else []
    ensures Only(audits + [row], IsRevoked) == Only(audits, IsRevoked) + if row.Revoked? then [row] else []
  {
    OnlyAppends(audits, [row], IsScoped);
    OnlyAppends(audits, [row], IsRevoked);
    OnlyOne(row, IsScoped);
    OnlyOne(row, IsRevoked);
  }

  lemma RevocationKeepsRows(s: State, v: Id)
    requires Inv(s) && Enabled(s, CommitRevocation(v))
    ensures var after := Apply(s, CommitRevocation(v));
            && Only(after.audits, IsScoped) == EntryRows(after.committed)
            && Only(after.audits, IsRevoked) == EndedRows(after.ended)
  {
    hide Only, TablesInv, TxInv, EntryInv, RevocationInv, Active;
    RowKeepsRows(s.audits, Revoked(s.revoking[v].grant));
  }

  lemma StepKeepsRows(s: State, step: Step)
    requires Inv(s) && Enabled(s, step)
    ensures var after := Apply(s, step);
            && Only(after.audits, IsScoped) == EntryRows(after.committed)
            && Only(after.audits, IsRevoked) == EndedRows(after.ended)
  {
    hide Only, TablesInv, TxInv, EntryInv, RevocationInv, Active, EntryRows, EndedRows, Selected, PendingInv;
    if step.Commit? {
      CommitKeepsRows(s, step.tx);
    } else if step.CommitRevocation? {
      RevocationKeepsRows(s, step.tx);
    } else if step.AddGrant? {
      RowKeepsRows(s.audits, Created(step.grant));
    }
  }

  lemma StepKeepsAudits(s: State, step: Step)
    requires Inv(s) && Enabled(s, step)
    ensures AuditInv(Apply(s, step))
  {
    hide Only, TablesInv, TxInv, EntryInv, RevocationInv, Active, EntryRows, EndedRows, Selected, PendingInv;
    var after := Apply(s, step);
    StepKeepsRows(s, step);
    forall t | t in after.txs ensures PendingInv(after.txs[t]) {
      StepKeepsPending(s, step, t);
    }
  }

  /** A transaction that the step does not move. */
  lemma StepKeepsOtherTx(s: State, step: Step, t: Id)
    requires TablesInv(s) && Enabled(s, step) && t in s.txs && TxInv(s, s.txs[t])
    requires t in Apply(s, step).txs && Apply(s, step).txs[t] == s.txs[t]
    ensures TxInv(Apply(s, step), s.txs[t])
  {
    hide Selected, Permits, Active, ScopedRow;
  }

  lemma MovedKeepsTx(s: State, step: Step, t: Id)
    requires TablesInv(s) && Enabled(s, step) && t in Apply(s, step).txs
    requires t in s.txs ==>
             TxInv(s, s.txs[t]) && RevocationInv(s, s.txs[t].d.grant) && Apply(s, step).txs[t] != s.txs[t]
    ensures TxInv(Apply(s, step), Apply(s, step).txs[t])
  {
    hide Selected, Permits, ScopedRow;
  }

  lemma StepKeepsTx(s: State, step: Step, t: Id)
    requires Inv(s) && Enabled(s, step) && t in Apply(s, step).txs
    ensures TxInv(Apply(s, step), Apply(s, step).txs[t])
  {
    hide TablesInv, TxInv, EntryInv, AuditInv, Selected, Active, RevocationInv;
    if t in s.txs && Apply(s, step).txs[t] == s.txs[t] {
      StepKeepsOtherTx(s, step, t);
    } else {
      MovedKeepsTx(s, step, t);
    }
  }

  lemma StepKeepsOldEntry(s: State, step: Step, e: Entry)
    requires TablesInv(s) && Enabled(s, step) && EntryInv(s, e)
    ensures EntryInv(Apply(s, step), e)
  {
    hide Selected, Permits, Active, ScopedRow;
  }

  lemma CommitMakesEntry(s: State, t: Id)
    requires TablesInv(s) && Enabled(s, Commit(t)) && TxInv(s, s.txs[t]) && RevocationInv(s, s.txs[t].d.grant)
    ensures var tx := s.txs[t];
            EntryInv(Apply(s, Commit(t)), Entry(t, tx.d, tx.phase.lockedAt, tx.phase.checked, s.clock))
  {
    hide Selected, Permits, Active, ScopedRow;
  }

  lemma StepKeepsEntry(s: State, step: Step, k: nat)
    requires Inv(s) && Enabled(s, step) && k < |Apply(s, step).committed|
    ensures EntryInv(Apply(s, step), Apply(s, step).committed[k])
  {
    hide TablesInv, TxInv, EntryInv, AuditInv, Selected, Active, RevocationInv;
    if k < |s.committed| {
      StepKeepsOldEntry(s, step, s.committed[k]);
    } else {
      CommitMakesEntry(s, step.tx);
    }
  }

  lemma StepKeepsRevocation(s: State, step: Step, g: Id)
    requires TablesInv(s) && RevocationInv(s, g) && Enabled(s, step)
    ensures RevocationInv(Apply(s, step), g)
  {
    hide Active, Selected, Permits, ScopeRecord, ScopedRow;
    var after := Apply(s, step);
    if step.CommitRevocation? && s.revoking[step.tx].grant == g {
      assert after.ended[|s.ended|].0 == g;
    } else if k :| 0 <= k < |s.ended| && s.ended[k].0 == g {
      assert after.ended[k].0 == g;
    }
  }

  lemma StepKeeps(s: State, step: Step)
    requires Inv(s) && Enabled(s, step)
    ensures Inv(Apply(s, step))
  {
    var after := Apply(s, step);
    StepKeepsTables(s, step);
    StepKeepsAudits(s, step);
    forall t | t in after.txs ensures TxInv(after, after.txs[t]) {
      StepKeepsTx(s, step, t);
    }
    forall k | 0 <= k < |after.committed| ensures EntryInv(after, after.committed[k]) {
      StepKeepsEntry(s, step, k);
    }
    forall g ensures RevocationInv(after, g) {
      StepKeepsRevocation(s, step, g);
    }
  }

  lemma {:induction false} RunInv(states: seq<State>, steps: seq<Step>, n: nat)
    requires IsRun(states, steps) && n < |states|
    ensures Inv(states[n])
  {
    hide Apply;
    if n == 0 {
      assert Inv(START);
    } else {
      RunInv(states, steps, n - 1);
      StepKeeps(states[n - 1], steps[n - 1]);
    }
  }

  /**
   In every interleaving, a committed delegated transaction held the grant's lock
   from before its recheck to its commit; at the recheck the grant was its own
   provider's, in date and explicitly scoped; and no revocation of that grant
   committed before the transaction did, in particular none before it locked.
   */
  lemma CommittedWasAuthorised(states: seq<State>, steps: seq<Step>, n: nat, k: nat, r: nat)
    requires IsRun(states, steps) && n < |states|
    requires k < |states[n].committed|
    ensures var s := states[n];
            var e := s.committed[k];
            && e.lockedAt < e.committedAt < s.clock
            && e.d.grant in s.grants && Allows(s.grants[e.d.grant], e.d, e.checked)
            && var g := s.grants[e.d.grant];
            && g.provider == e.d.provider && g.responsible == e.d.responsible && g.provider != g.responsible
            && g.from <= e.checked && (forall end :: g.until == Some(end) ==> e.checked < end)
            && g.scope.Obj? && Member(e.d.scope, Bool(true)) in g.scope.members
            && (r < |s.ended| && s.ended[r].0 == e.d.grant ==> e.lockedAt < e.committedAt < s.ended[r].1)
  {
    hide Apply;
    RunInv(states, steps, n);
    assert EntryInv(states[n], states[n].committed[k]);
  }

  /**
   In every interleaving of works, audit inserts, commits and aborts: the log's
   rows for delegated transactions are those of the committed ones, one each and
   in the order of their commits, its revocation rows those of the committed
   revocations, and nothing that did not commit left any.
   */
  lemma OneAuditRowEach(states: seq<State>, steps: seq<Step>, n: nat)
    requires IsRun(states, steps) && n < |states|
    ensures Only(states[n].audits, IsScoped) == EntryRows(states[n].committed)
    ensures Only(states[n].audits, IsRevoked) == EndedRows(states[n].ended)
  {
    hide Apply;
    RunInv(states, steps, n);
  }

  /** A revocation cannot slip in while the lock is held. */
  lemma RevocationWaits(states: seq<State>, steps: seq<Step>, n: nat, t: Id, v: Id)
    requires IsRun(states, steps) && n < |states|
    requires t in states[n].txs && !states[n].txs[t].phase.Begun?
    ensures !Enabled(states[n], StartRevoking(v, states[n].txs[t].d.grant))
    ensures v in states[n].revoking ==> states[n].revoking[v].grant != states[n].txs[t].d.grant
  {
    hide Apply;
    RunInv(states, steps, n);
    assert TxInv(states[n], states[n].txs[t]);
    assert SharesLock(states[n].txs[t], states[n].txs[t].d.grant);
  }

  /** Alone, `Run` on the responsible tenant is those steps: it gets to work exactly when the recheck succeeds. */
  lemma RunIsThoseSteps(s: State, t: Id, d: Delegated, workOk: bool)
    requires Inv(s) && t !in s.txs && t !in s.revoking && d in s.requests
    requires forall v :: v in s.revoking ==> s.revoking[v].grant != d.grant
    ensures Enabled(s, Begin(t, d)) && Enabled(Apply(s, Begin(t, d)), LockGrant(t))
    ensures var locked := Apply(Apply(s, Begin(t, d)), LockGrant(t));
            Enabled(locked, Recheck(t)) &&
            var checked := Apply(locked, Recheck(t));
            && checked.audits == s.audits
            && (t in checked.txs && workOk <==>
                RunOutcome(s.grants, d.responsible, Some(d), s.now, workOk) == Committed)
            && (t in checked.txs ==>
                checked.txs[t].phase.Working? && checked.txs[t].d == d && checked.txs[t].pending == [])
  {
    hide EntryInv, AuditInv, TxInv, RevocationInv, Selected, ScopeRecord, Permits;
  }

  /** From there on it leaves the rows `Run` does: the work's own, then its own. */
  lemma WorkedRunCommits(s: State, t: Id, action: string)
    requires t in s.txs && s.txs[t].phase.Working? && s.txs[t].pending == []
    ensures Enabled(s, Work(t, action)) && Enabled(Apply(s, Work(t, action)), WriteAudit(t))
    ensures var audited := Apply(Apply(s, Work(t, action)), WriteAudit(t));
            Enabled(audited, Commit(t)) && Apply(audited, Commit(t)).audits == s.audits + [Other(action)]
                + [ScopedRow(s.txs[t].d)]
  {
    hide Selected;
  }
}
