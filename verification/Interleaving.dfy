/**
 Any number of transactions at once. An endpoint locks rows one by one, reads and
 decides, and writes later; the rejection of evidence found to be malware reads the
 links before it may lock the models, so it re-checks them. The invariant of the
 rows holds all the same.
 */
module Interleaving {
  import opened Prelude
  import opened PassportValues
  import opened PassportTables
  import opened PassportSteps
  import opened Footprint
  import opened Stability
  import opened Transactions
  import PI = PassportInvariant
  import EC = EvidenceCas
  import PR = PassportRuns
  import LO = LockOrder
  import SM = StateMachine

  /** A rejection: `seen` maps the linked values to their owners as read; `todo` lists the models still to be locked. */
  datatype Phase =
    | Loaded
    | Locking(seen: map<Id, Owner>, todo: seq<Id>, models: set<Id>)
    | Holding(seen: map<Id, Owner>, models: set<Id>)
    | Checked(seen: map<Id, Owner>, models: set<Id>)

  /**
   An endpoint's transaction with the locks it holds and, once it has decided, the
   rows as it read them; or a rejection of `target`, loaded with a status.
   */
  datatype Tx =
    | Writer(step: PR.Step, locks: set<Lock>, seen: Option<Db>)
    | Rejecter(target: Id, loaded: EvidenceStatus, attempt: nat, phase: Phase)

  datatype State = State(db: Db, txs: map<Id, Tx>)

  datatype Move =
    | BeginWrite(tx: Id, step: PR.Step)
    | TakeLock(tx: Id, lock: Lock)
    | Decide(tx: Id)
    | FinishWrite(tx: Id)
    | BeginReject(tx: Id, target: Id)
    | ReadLinks(tx: Id, order: seq<Id>)
    | LockNextModel(tx: Id)
    | LockEvidence(tx: Id)
    | Recheck(tx: Id)
    | CommitRejection(tx: Id)
    | Abandon(tx: Id)

  // ---- locks ----

  function HeldLocks(tx: Tx): set<Lock> {
    match tx
    case Writer(_, locks, _) => locks
    case Rejecter(target, _, _, phase) =>
      (if phase.Loaded? then {} else ModelLocks(phase.models))
      + if phase.Holding? || phase.Checked? then {LO.EvidenceRow(target)} else {}
  }

  predicate Free(txs: map<Id, Tx>, t: Id, lock: Lock) {
    forall u :: u in txs && u != t ==> lock !in HeldLocks(txs[u])
  }

  // ---- the rejection ----

  /** The values linked to the evidence, each with its owner. */
  function Linked(t: Table, evidence: Id): map<Id, Owner> {
    map v | 0 <= v < |t.values| && Link(evidence, v) in t.links :: t.values[v].owner
  }

  function GuardsOf(db: Db, seen: map<Id, Owner>): set<Id> {
    set v | v in seen && Guard(db, seen[v]).Some? :: Guard(db, seen[v]).value
  }

  /** The models in ascending order, each once. */
  predicate Lists(order: seq<Id>, models: set<Id>) {
    && SetOf(order) == models
    && (forall i, j :: 0 <= i < j < |order| ==> order[i] < order[j])
  }

  /** What the transaction writes: the row, and the passports of the owners it read. */
  function RejectedRows(db: Db, target: Id, seen: map<Id, Owner>): Db
    requires target in db.evidence
  {
    db.(evidence := db.evidence[target := db.evidence[target].(status := RejectedEvidence, scanned := false)],
        items := Invalidate(db.items, seen.Values))
  }

  predicate InPhase(s: State, t: Id) {
    t in s.txs && s.txs[t].Rejecter?
  }

  /** After the re-check: the same values as before, or another attempt of at most three. */
  function Rechecked(s: State, t: Id): State
    requires InPhase(s, t) && s.txs[t].phase.Holding?
  {
    var tx := s.txs[t];
    if Linked(s.db.table, tx.target).Keys == tx.phase.seen.Keys
    then s.(txs := s.txs[t := tx.(phase := Checked(tx.phase.seen, tx.phase.models))])
    else if tx.attempt < 2 then s.(txs := s.txs[t := tx.(attempt := tx.attempt + 1, phase := Loaded)])
    else s.(txs := s.txs - {t})
  }

  // ---- moves ----

  /** The transaction has decided, and nothing its decision refers to is missing. */
  ghost predicate Writable(env: Env, s: State, w: Tx) {
    && w.Writer? && w.seen.Some?
    && PR.Enabled(w.seen.value, w.step) && PR.Attempt(env, w.seen.value, w.step).Done? && Fits(w.seen.value, s.db)
  }

  ghost predicate Enabled(env: Env, s: State, move: Move) {
    match move
    case BeginWrite(t, step) => t !in s.txs && !step.StepRejectEvidence?
    case TakeLock(t, lock) => t in s.txs && s.txs[t].Writer? && s.txs[t].seen.None? && Free(s.txs, t, lock)
    case Decide(t) =>
      && t in s.txs && s.txs[t].Writer? && s.txs[t].seen.None? && !IsStatement(s.txs[t].step)
      && PR.Enabled(s.db, s.txs[t].step) && Needs(s.db, s.txs[t].step) <= s.txs[t].locks
      && PR.Attempt(env, s.db, s.txs[t].step).Done?
    case FinishWrite(t) =>
      && t in s.txs && s.txs[t].Writer?
      && if IsStatement(s.txs[t].step) then Needs(s.db, s.txs[t].step) <= s.txs[t].locks else Writable(env, s, s.txs[t])
    case BeginReject(t, target) => t !in s.txs && target in s.db.evidence && !Unusable(s.db.evidence[target].status)
    case ReadLinks(t, order) =>
      InPhase(s, t) && s.txs[t].phase.Loaded? && Lists(order, GuardsOf(s.db, Linked(s.db.table, s.txs[t].target)))
    case LockNextModel(t) =>
      && InPhase(s, t) && s.txs[t].phase.Locking? && s.txs[t].phase.todo != []
      && Free(s.txs, t, LO.ModelRow(s.txs[t].phase.todo[0]))
    case LockEvidence(t) =>
      && InPhase(s, t) && s.txs[t].phase.Locking? && s.txs[t].phase.todo == []
      && Free(s.txs, t, LO.EvidenceRow(s.txs[t].target))
    case Recheck(t) => InPhase(s, t) && s.txs[t].phase.Holding?
    case CommitRejection(t) =>
      && InPhase(s, t) && s.txs[t].phase.Checked?
      && s.txs[t].target in s.db.evidence && s.db.evidence[s.txs[t].target].status == s.txs[t].loaded
    case Abandon(t) => t in s.txs
  }

  /** Publishing under an identifier that another item has by now is refused by the database. */
  ghost predicate Refusing(env: Env, db: Db, w: Tx)
    requires w.Writer? && w.seen.Some?
  {
    w.step.StepPublish? && w.step.item in w.seen.value.items
    && UpiTaken(db, w.step.item, UpiOf(env, w.seen.value.items[w.step.item]))
  }

  /** The rows after a transaction has written. */
  ghost function Finished(env: Env, s: State, t: Id): Db
    requires Enabled(env, s, FinishWrite(t))
  {
    var w := s.txs[t];
    if IsStatement(w.step) then PR.Apply(env, s.db, w.step)
    else if Refusing(env, s.db, w) then s.db
    else Written(env, w.seen.value, s.db, w.step)
  }

  ghost function Apply(env: Env, s: State, move: Move): State
    requires Enabled(env, s, move)
  {
    match move
    case BeginWrite(t, step) => s.(txs := s.txs[t := Writer(step, {}, None)])
    case TakeLock(t, lock) => s.(txs := s.txs[t := s.txs[t].(locks := s.txs[t].locks + {lock})])
    case Decide(t) => s.(txs := s.txs[t := s.txs[t].(seen := Some(s.db))])
    case FinishWrite(t) => State(Finished(env, s, t), s.txs - {t})
    case BeginReject(t, target) => s.(txs := s.txs[t := Rejecter(target, s.db.evidence[target].status, 0, Loaded)])
    case ReadLinks(t, order) =>
      s.(txs := s.txs[t := s.txs[t].(phase := Locking(Linked(s.db.table, s.txs[t].target), order, {}))])
    case LockNextModel(t) =>
      var p := s.txs[t].phase;
      s.(txs := s.txs[t := s.txs[t].(phase := p.(models := p.models + {p.todo[0]}, todo := p.todo[1..]))])
    case LockEvidence(t) =>
      s.(txs := s.txs[t := s.txs[t].(phase := Holding(s.txs[t].phase.seen, s.txs[t].phase.models))])
    case Recheck(t) => Rechecked(s, t)
    case CommitRejection(t) => State(RejectedRows(s.db, s.txs[t].target, s.txs[t].phase.seen), s.txs - {t})
    case Abandon(t) => s.(txs := s.txs - {t})
  }

  ghost predicate IsRun(env: Env, states: seq<State>, moves: seq<Move>) {
    && |states| == |moves| + 1
    && states[0] == State(PR.EMPTY, map[])
    && forall i :: 0 <= i < |moves| ==>
         Enabled(env, states[i], moves[i]) && states[i + 1] == Apply(env, states[i], moves[i])
  }

  // ---- the invariant ----

  /** What was read of the links is still so; more may have come. */
  predicate SeenOk(db: Db, target: Id, seen: map<Id, Owner>) {
    forall v :: v in seen ==>
      v < |db.table.values| && db.table.values[v].owner == seen[v] && Link(target, v) in db.table.links
  }

  predicate RejecterOk(db: Db, tx: Tx)
    requires tx.Rejecter?
  {
    && !Unusable(tx.loaded) && tx.attempt < 3
    && (!tx.phase.Loaded? ==>
          && SeenOk(db, tx.target, tx.phase.seen)
          && GuardsOf(db, tx.phase.seen) ==
             tx.phase.models + (if tx.phase.Locking? then SetOf(tx.phase.todo) else {}))
    && (tx.phase.Checked? ==> Linked(db.table, tx.target).Keys == tx.phase.seen.Keys)
  }

  ghost predicate TxOk(env: Env, db: Db, tx: Tx) {
    match tx
    case Writer(step, locks, seen) =>
      && !step.StepRejectEvidence?
      && (seen.Some? ==> Decided(env, seen.value, db, step, locks))
    case Rejecter(_, _, _, _) => RejecterOk(db, tx)
  }

  predicate Apart(txs: map<Id, Tx>) {
    forall t, u :: t in txs && u in txs && t != u ==> HeldLocks(txs[t]) !! HeldLocks(txs[u])
  }

  ghost predicate Inv(env: Env, s: State) {
    && PI.Inv(env, s.db) && OwnersKnown(s.db) && Apart(s.txs)
    && forall t :: t in s.txs ==> TxOk(env, s.db, s.txs[t])
  }

  // ---- locks stay apart ----

  /** A transaction only takes locks that are free. */
  lemma LocksAreFree(env: Env, s: State, move: Move, lock: Lock)
    requires Enabled(env, s, move) && move.tx in Apply(env, s, move).txs
    ensures lock in HeldLocks(Apply(env, s, move).txs[move.tx]) ==>
              (move.tx in s.txs && lock in HeldLocks(s.txs[move.tx])) || Free(s.txs, move.tx, lock)
  {
    hide PR.Apply, PR.Enabled, PR.Attempt, Needs, Linked, GuardsOf, Invalidate, Written;
  }

  lemma OnlyOneMoves(env: Env, s: State, move: Move, u: Id)
    requires Enabled(env, s, move) && u != move.tx
    ensures u in s.txs <==> u in Apply(env, s, move).txs
    ensures u in s.txs ==> Apply(env, s, move).txs[u] == s.txs[u]
  {
    hide PR.Apply, PR.Enabled, PR.Attempt, Needs, Linked, GuardsOf, Invalidate, HeldLocks, Written;
  }

  lemma StepKeepsApart(env: Env, s: State, move: Move)
    requires Apart(s.txs) && Enabled(env, s, move)
    ensures Apart(Apply(env, s, move).txs)
  {
    hide Apply, Enabled, HeldLocks;
    var after := Apply(env, s, move).txs;
    forall t, u | t in after && u in after && t != u ensures HeldLocks(after[t]) !! HeldLocks(after[u]) {
      if t != move.tx {
        OnlyOneMoves(env, s, move, t);
      }
      if u != move.tx {
        OnlyOneMoves(env, s, move, u);
      }
      forall x ensures !(x in HeldLocks(after[t]) && x in HeldLocks(after[u])) {
        if t == move.tx || u == move.tx {
          LocksAreFree(env, s, move, x);
        }
      }
    }
  }

  // ---- what a commit does to the rows ----

  /** A validation that found the item wanting, which is publishable by now. */
  ghost predicate Stale(env: Env, db: Db, w: Tx)
    requires w.Writer?
  {
    w.step.StepValidate? && w.seen.Some? && !NotStale(env, w.seen.value, db, w.step)
  }

  /** The item as such a validation leaves it. */
  function WantingRows(db: Db, id: Id): Db
    requires id in db.items
  {
    var item := db.items[id];
    db.(items := db.items[id := item.(state := SM.Validated(item.state, false))])
  }

  lemma StaleRows(env: Env, s: State, t: Id)
    requires Inv(env, s) && Enabled(env, s, FinishWrite(t)) && Stale(env, s.db, s.txs[t])
    ensures var w := s.txs[t];
            && HeldItem(s.db, w.step.item, w.locks) && LockItem(s.db, w.step.item).None?
            && Finished(env, s, t) == WantingRows(s.db, w.step.item)
  {
    hide Publishable, Decided, PI.Inv, OwnersKnown, PR.Attempt, PR.Enabled, PR.Apply, Needs;
    var w := s.txs[t];
    assert TxOk(env, s.db, w);
    ItemIsHeld(env, w.seen.value, s.db, w.step, w.locks);
    hide LockItem;
  }

  /** Every other write is a whole step, done at that moment under the locks it needs. */
  lemma WriteIsWhole(env: Env, s: State, t: Id) returns (step: PR.Step)
    requires Inv(env, s) && Enabled(env, s, FinishWrite(t)) && !Stale(env, s.db, s.txs[t])
    requires IsStatement(s.txs[t].step) || !Refusing(env, s.db, s.txs[t])
    ensures PR.Enabled(s.db, step) && Finished(env, s, t) == PR.Apply(env, s.db, step)
    ensures Needs(s.db, step) <= s.txs[t].locks
  {
    hide Publishable, Decided, PI.Inv, OwnersKnown, PR.Attempt, Needs, UpiTaken, Written;
    var w := s.txs[t];
    assert TxOk(env, s.db, w);
    if IsStatement(w.step) {
      return w.step;
    }
    step := Relisted(w.seen.value, s.db, w.locks, w.step);
    WriteIsStep(env, w.seen.value, s.db, w.step, w.locks);
  }

  lemma WantingKeeps(env: Env, db: Db, id: Id, locks: set<Lock>)
    requires PI.Inv(env, db) && OwnersKnown(db) && LockItem(db, id).None? && ItemLocks(db, id) !! locks
    ensures PI.Inv(env, WantingRows(db, id))
    ensures Stable(db, WantingRows(db, id), locks) && OwnersKnown(WantingRows(db, id))
  {
    hide PI.ItemInv, PI.PublishedInv, PI.RowsInv, Stable, OwnersKnown, ItemLocks;
    var item := db.items[id];
    PI.StateKeepsHistory(env, id, item, SM.Validated(item.state, false));
    PI.OneItemKeeps(env, db, id, item.(state := SM.Validated(item.state, false)));
    ItemStable(db, id, item.(state := SM.Validated(item.state, false)), locks);
  }

  lemma FinishStable(env: Env, s: State, t: Id, locks: set<Lock>)
    requires Inv(env, s) && Enabled(env, s, FinishWrite(t)) && s.txs[t].locks !! locks
    ensures var after := Finished(env, s, t);
            PI.Inv(env, after) && Stable(s.db, after, locks) && OwnersKnown(after)
  {
    hide Publishable, Decided, PI.Inv, OwnersKnown, PR.Attempt, PR.Apply, PR.Enabled, Needs, UpiTaken, Written,
        NotStale;
    hide Stable, HeldItem, LockItem, Apart, TxOk;
    var w := s.txs[t];
    if Stale(env, s.db, w) {
      StaleRows(env, s, t);
      HeldItemLocks(s.db, w.step.item, w.locks);
      WantingKeeps(env, s.db, w.step.item, locks);
    } else if !IsStatement(w.step) && Refusing(env, s.db, w) {
      StableSelf(s.db, locks);
    } else {
      var step := WriteIsWhole(env, s, t);
      PR.StepKeeps(env, s.db, step);
      StepStable(env, s.db, step, locks);
    }
  }

  lemma HeldItemLocks(db: Db, id: Id, locks: set<Lock>)
    requires HeldItem(db, id, locks)
    ensures ItemLocks(db, id) <= locks
  {
  }

  lemma OwnersAreLinked(db: Db, target: Id, seen: map<Id, Owner>)
    requires SeenOk(db, target, seen) && Linked(db.table, target).Keys == seen.Keys
    ensures seen.Values == LinkedOwners(db.table, target)
  {
    forall o ensures o in seen.Values <==> o in LinkedOwners(db.table, target) {
      if o in seen.Values {
        var v :| v in seen && seen[v] == o;
        assert Link(target, v) in db.table.links;
      }
      if o in LinkedOwners(db.table, target) {
        var l :| l in db.table.links && l.evidence == target && l.value < |db.table.values|
            && db.table.values[l.value].owner == o;
        assert Link(target, l.value) == l && l.value in Linked(db.table, target);
      }
    }
  }

  /** A rejection that commits is the whole step, done at that moment under the locks it needs. */
  lemma RejectionIsWhole(env: Env, s: State, t: Id)
    requires Inv(env, s) && Enabled(env, s, CommitRejection(t))
    ensures var tx := s.txs[t];
            && tx.phase.seen.Values == LinkedOwners(s.db.table, tx.target)
            && RejectEvidence(s.db, tx.target) == Done(RejectedRows(s.db, tx.target, tx.phase.seen))
            && Needs(s.db, PR.StepRejectEvidence(tx.target)) <= HeldLocks(tx)
  {
    hide PI.Inv, OwnersKnown, Apart, Needs, Invalidate, Decided, PR.Enabled, PR.Attempt;
    var tx := s.txs[t];
    assert TxOk(env, s.db, tx);
    OwnersAreLinked(s.db, tx.target, tx.phase.seen);
    NeedsAre(s.db, PR.StepRejectEvidence(tx.target));
    forall m | m in LinkedGuards(s.db, tx.target) ensures m in tx.phase.models {
      var o :| o in LinkedOwners(s.db.table, tx.target) && Guard(s.db, o) == Some(m);
      var v :| v in tx.phase.seen && tx.phase.seen[v] == o;
      assert m in GuardsOf(s.db, tx.phase.seen);
    }
  }

  lemma CommitStable(env: Env, s: State, t: Id, locks: set<Lock>)
    requires Inv(env, s) && Enabled(env, s, CommitRejection(t)) && HeldLocks(s.txs[t]) !! locks
    ensures var after := RejectedRows(s.db, s.txs[t].target, s.txs[t].phase.seen);
            PI.Inv(env, after) && Stable(s.db, after, locks) && OwnersKnown(after)
  {
    hide PI.Inv, OwnersKnown, Apart, Needs, Invalidate, Decided, Stable, TxOk, RejectedRows, RejectEvidence;
    var step := PR.StepRejectEvidence(s.txs[t].target);
    RejectionIsWhole(env, s, t);
    PR.StepKeeps(env, s.db, step);
    StepStable(env, s.db, step, locks);
  }

  // ---- the other transactions ----

  lemma GuardsStay(db: Db, after: Db, locks: set<Lock>, target: Id, seen: map<Id, Owner>)
    requires OwnersKnown(db) && Stable(db, after, locks) && SeenOk(db, target, seen)
    ensures SeenOk(after, target, seen) && GuardsOf(after, seen) == GuardsOf(db, seen)
  {
    forall v | v in seen ensures Guard(after, seen[v]) == Guard(db, seen[v]) {
      assert Guard(db, db.table.values[v].owner).Some?;
    }
  }

  lemma LinkedStay(db: Db, after: Db, locks: set<Lock>, target: Id)
    requires OwnersKnown(db) && Stable(db, after, locks) && LO.EvidenceRow(target) in locks
    ensures Linked(after.table, target).Keys == Linked(db.table, target).Keys
  {
    forall v ensures v in Linked(after.table, target) <==> v in Linked(db.table, target) {
      assert v in Linked(after.table, target) <==>
             0 <= v < |after.table.values| && Link(target, v) in after.table.links;
      assert v in Linked(db.table, target) <==> 0 <= v < |db.table.values| && Link(target, v) in db.table.links;
    }
  }

  lemma StableKeepsTx(env: Env, db: Db, after: Db, tx: Tx)
    requires OwnersKnown(db) && Stable(db, after, HeldLocks(tx)) && PI.Inv(env, after) && TxOk(env, db, tx)
    ensures TxOk(env, after, tx)
  {
    hide OwnersKnown, Stable, PR.Enabled, PR.Attempt, Needs, Linked, GuardsOf, SeenOk, Chained, PI.Inv;
    match tx
    case Writer(step, locks, seen) =>
      if seen.Some? {
        StableChain(seen.value, db, after, locks);
        PI.InvIsChained(env, after);
      }
    case Rejecter(target, _, _, phase) =>
      if !phase.Loaded? {
        GuardsStay(db, after, HeldLocks(tx), target, phase.seen);
      }
      if phase.Checked? {
        LinkedStay(db, after, HeldLocks(tx), target);
      }
  }

  lemma NextIsLocked(env: Env, s: State, t: Id)
    requires Enabled(env, s, LockNextModel(t)) && RejecterOk(s.db, s.txs[t])
    ensures var p := s.txs[t].phase;
            RejecterOk(s.db, s.txs[t].(phase := p.(models := p.models + {p.todo[0]}, todo := p.todo[1..])))
  {
    hide PR.Enabled, PR.Attempt, PR.Apply, Needs, GuardsOf, Linked, SeenOk;
    var todo := s.txs[t].phase.todo;
    assert todo == [todo[0]] + todo[1..];
    assert SetOf(todo) == {todo[0]} + SetOf(todo[1..]);
  }

  lemma LinkedIsSeen(db: Db, target: Id)
    ensures SeenOk(db, target, Linked(db.table, target))
  {
  }

  lemma DecidedNow(env: Env, db: Db, step: PR.Step, locks: set<Lock>)
    requires PI.Inv(env, db) && OwnersKnown(db) && PR.Enabled(db, step) && Needs(db, step) <= locks
    requires PR.Attempt(env, db, step).Done? && !IsStatement(step) && !step.StepRejectEvidence?
    ensures Decided(env, db, db, step, locks)
  {
    hide PI.Inv, OwnersKnown, PR.Attempt, PR.Enabled, Needs, Stable;
    PI.InvIsChained(env, db);
    StableSelf(db, locks);
  }

  /** The transaction that moves, if its move leaves the rows alone. */
  lemma MovedStays(env: Env, s: State, move: Move)
    requires Inv(env, s) && Enabled(env, s, move) && move.tx in Apply(env, s, move).txs
    ensures Apply(env, s, move).db == s.db && TxOk(env, s.db, Apply(env, s, move).txs[move.tx])
  {
    hide PR.Apply, PR.Attempt, PR.Enabled, Needs, Invalidate, Apart, OwnersKnown, GuardsOf, PI.Inv, Decided, Written;
    hide Linked, SeenOk;
    assert move.tx in s.txs ==> TxOk(env, s.db, s.txs[move.tx]);
    match move
    case Decide(t) => DecidedNow(env, s.db, s.txs[t].step, s.txs[t].locks);
    case LockNextModel(t) => NextIsLocked(env, s, t);
    case ReadLinks(t, _) => LinkedIsSeen(s.db, s.txs[t].target);
    case _ =>
  }

  /** The rows change only when a transaction commits, and then it is gone. */
  lemma RowsMove(env: Env, s: State, move: Move)
    requires Enabled(env, s, move)
    ensures move.FinishWrite? ==> Apply(env, s, move) == State(Finished(env, s, move.tx), s.txs - {move.tx})
    ensures move.CommitRejection? ==> move.tx in s.txs && s.txs[move.tx].Rejecter?
    ensures !move.FinishWrite? && !move.CommitRejection? ==> Apply(env, s, move).db == s.db
  {
    hide PR.Apply, PR.Attempt, PR.Enabled, Needs, Invalidate, GuardsOf, Written, Linked;
  }

  /** The rows keep their invariant, and those that another transaction holds stay. */
  lemma StepKeepsRows(env: Env, s: State, move: Move, other: Option<Id>)
    requires Inv(env, s) && Enabled(env, s, move)
    requires other.Some? ==> other.value in s.txs && other.value != move.tx
    ensures var after := Apply(env, s, move).db;
            && PI.Inv(env, after) && OwnersKnown(after)
            && (other.Some? ==> Stable(s.db, after, HeldLocks(s.txs[other.value])))
  {
    hide PR.Apply, PR.Attempt, PR.Enabled, Needs, OwnersKnown, PI.Inv, TxOk, Stable, Written, HeldLocks, RejectedRows;
    var others := if other.Some? then HeldLocks(s.txs[other.value]) else {};
    RowsMove(env, s, move);
    if move.FinishWrite? {
      WriterLocks(s.txs[move.tx]);
      FinishStable(env, s, move.tx, others);
    } else if move.CommitRejection? {
      CommitStable(env, s, move.tx, others);
    } else {
      StableSelf(s.db, others);
    }
  }

  lemma WriterLocks(tx: Tx)
    ensures tx.Writer? ==> HeldLocks(tx) == tx.locks
  {
  }

  lemma StepKeeps(env: Env, s: State, move: Move)
    requires Inv(env, s) && Enabled(env, s, move)
    ensures Inv(env, Apply(env, s, move))
  {
    hide Apply, Enabled, OwnersKnown, PI.Inv, TxOk, Stable, HeldLocks, Apart;
    var after := Apply(env, s, move);
    StepKeepsApart(env, s, move);
    StepKeepsRows(env, s, move, None);
    forall u | u in after.txs ensures TxOk(env, after.db, after.txs[u]) {
      if u == move.tx {
        MovedStays(env, s, move);
      } else {
        OnlyOneMoves(env, s, move, u);
        StepKeepsRows(env, s, move, Some(u));
        StableKeepsTx(env, s.db, after.db, s.txs[u]);
      }
    }
  }

  lemma StartInv(env: Env)
    ensures Inv(env, State(PR.EMPTY, map[]))
  {
    PR.EmptyInv(env);
  }

  lemma {:induction false} RunInv(env: Env, states: seq<State>, moves: seq<Move>, n: nat)
    requires IsRun(env, states, moves) && n < |states|
    ensures Inv(env, states[n])
  {
    hide Apply, Enabled, Inv;
    if n == 0 {
      StartInv(env);
    } else {
      RunInv(env, states, moves, n - 1);
      StepKeeps(env, states[n - 1], moves[n - 1]);
    }
  }

  // ---- main results ----

  /**
   Whatever was linked, accepted, created or published between the first reading and
   the locks, in every run a rejection that commits invalidates exactly the owners
   the evidence is linked to now, and holds each one's model alone: it is the
   transaction `RejectEvidence`, done at once.
   */
  lemma CommitIsRejection(env: Env, states: seq<State>, moves: seq<Move>, n: nat, t: Id)
    requires IsRun(env, states, moves) && n < |states| && Enabled(env, states[n], CommitRejection(t))
    ensures var s := states[n];
            var tx := s.txs[t];
            && tx.phase.seen.Values == LinkedOwners(s.db.table, tx.target)
            && RejectEvidence(s.db, tx.target) == Done(Apply(env, s, CommitRejection(t)).db)
            && forall o :: o in LinkedOwners(s.db.table, tx.target) ==>
                 && Guard(s.db, o).Some? && LO.ModelRow(Guard(s.db, o).value) in HeldLocks(tx)
                 && Free(s.txs, t, LO.ModelRow(Guard(s.db, o).value))
  {
    hide PR.Apply, PR.Enabled, PR.Attempt, Needs, Invalidate, OwnersKnown, IsRun, PI.Inv, RejectEvidence, Written;
    RunInv(env, states, moves, n);
    var s := states[n];
    RejectionIsWhole(env, s, t);
    forall o | o in LinkedOwners(s.db.table, s.txs[t].target)
      ensures Guard(s.db, o).Some? && LO.ModelRow(Guard(s.db, o).value) in HeldLocks(s.txs[t])
      ensures Free(s.txs, t, LO.ModelRow(Guard(s.db, o).value))
    {
      LinkedIsGuarded(s.db, s.txs[t].target, o);
    }
  }

  lemma LinkedIsGuarded(db: Db, target: Id, o: Owner)
    requires OwnersKnown(db) && o in LinkedOwners(db.table, target)
    ensures Guard(db, o).Some? && LO.ModelRow(Guard(db, o).value) in Needs(db, PR.StepRejectEvidence(target))
  {
    hide Needs;
    NeedsAre(db, PR.StepRejectEvidence(target));
    var l :| l in db.table.links && l.evidence == target && l.value < |db.table.values|
        && db.table.values[l.value].owner == o;
    assert Guard(db, o).value in LinkedGuards(db, target);
    assert LO.ModelRow(Guard(db, o).value) in ModelLocks(LinkedGuards(db, target));
  }

  /**
   The re-check fails only when a value was linked since the links were read; the third failure
   ends the transaction.
   */
  lemma RetryNeedsNewLink(env: Env, states: seq<State>, moves: seq<Move>, n: nat, t: Id)
    requires IsRun(env, states, moves) && n < |states| && Enabled(env, states[n], Recheck(t))
    ensures var s, after := states[n], Apply(env, states[n], Recheck(t));
            var tx := s.txs[t];
            && after.db == s.db && tx.attempt < 3
            && (t in after.txs && after.txs[t].phase.Checked? <==>
                  forall v :: v in Linked(s.db.table, tx.target) ==> v in tx.phase.seen)
            && (t !in after.txs ==> tx.attempt == 2)
  {
    hide PR.Apply, PR.Enabled, PR.Attempt, Needs, Invalidate, OwnersKnown, IsRun, PI.Inv;
    RunInv(env, states, moves, n);
    var s := states[n];
    var tx := s.txs[t];
    assert TxOk(env, s.db, tx) && SeenOk(s.db, tx.target, tx.phase.seen);
    assert tx.phase.seen.Keys <= Linked(s.db.table, tx.target).Keys;
  }

  /** A transaction that has decided can always write. */
  lemma DecidedCanFinish(env: Env, states: seq<State>, moves: seq<Move>, n: nat, t: Id)
    requires IsRun(env, states, moves) && n < |states|
    requires t in states[n].txs && states[n].txs[t].Writer? && states[n].txs[t].seen.Some?
    ensures Enabled(env, states[n], FinishWrite(t))
  {
    hide PR.Apply, PR.Enabled, PR.Attempt, Needs, Invalidate, OwnersKnown, IsRun, PI.Inv, Written;
    RunInv(env, states, moves, n);
    assert TxOk(env, states[n].db, states[n].txs[t]);
  }

  /** A validation writes what it would find now exactly when it found the item publishable or would still not. */
  lemma ValidationIsWholeIff(env: Env, s: State, t: Id)
    requires Inv(env, s) && Enabled(env, s, FinishWrite(t)) && s.txs[t].step.StepValidate?
    ensures Finished(env, s, t) == PR.Apply(env, s.db, s.txs[t].step) <==> !Stale(env, s.db, s.txs[t])
  {
    hide Publishable, PI.Inv, OwnersKnown, PR.Attempt, PR.Apply, Needs, Decided, Written, HeldItem, LockItem;
    var w := s.txs[t];
    if Stale(env, s.db, w) {
      StaleRows(env, s, t);
      WantingIsNotReady(env, s.db, w.step);
    } else {
      assert TxOk(env, s.db, w);
      ValidateWrites(env, w.seen.value, s.db, w.step, w.locks);
      AppliedIsDone(env, s.db, w.step);
    }
  }

  lemma AppliedIsDone(env: Env, db: Db, step: PR.Step)
    requires PR.Enabled(db, step) && PR.Attempt(env, db, step).Done?
    ensures PR.Apply(env, db, step) == PR.Attempt(env, db, step).db
  {
    hide PR.Attempt;
  }

  lemma WantingIsNotReady(env: Env, db: Db, step: PR.Step)
    requires step.StepValidate? && LockItem(db, step.item).None? && Publishable(env, db, step.item, step.now)
    ensures WantingRows(db, step.item) != PR.Apply(env, db, step)
  {
    hide Publishable;
    assert PR.Apply(env, db, step).items[step.item].state == SM.Validated(db.items[step.item].state, true);
    assert WantingRows(db, step.item).items[step.item].state == SM.Validated(db.items[step.item].state, false);
  }

  /**
   In every run, whatever committed between an endpoint's reading and its writing: the
   latest version of a published item has the battery block and values of the rows as
   they are now, and every field required of it is validated and rests on evidence
   that was not rejected.
   */
  lemma PublicationHoldsInEveryRun(env: Env, states: seq<State>, moves: seq<Move>, n: nat, id: Id)
    requires IsRun(env, states, moves) && n < |states| && HasModel(states[n].db, id)
    requires SM.IsPublished(states[n].db.items[id].state)
    ensures var db := states[n].db;
            && db.items[id].versions != []
            && Agrees(env, db.table, id, db.items[id], ModelOf(db, id),
                      db.items[id].versions[|db.items[id].versions| - 1].document)
            && forall f :: Required(env, ModelOf(db, id), f) ==>
                 PI.Backed(env, db.table, db.evidence, HolderOf(db, id), f.id)
  {
    hide Apply, Enabled, PR.Apply, PR.Enabled, PI.Backed, Required, IsRun, Agrees, TxOk;
    RunInv(env, states, moves, n);
    assert PI.PublishedInv(env, states[n].db, id);
  }

  // ---- the rejection as its method runs it ----

  /** The ids in some order, each once. */
  predicate ListsOnce(list: seq<Id>, ids: set<Id>) {
    SetOf(list) == ids && forall i, j :: 0 <= i < j < |list| ==> list[i] != list[j]
  }

  lemma {:induction false} OnceEach(list: seq<Id>, ids: set<Id>, x: Id)
    requires ListsOnce(list, ids)
    ensures multiset(list)[x] == if x in ids then 1 else 0
    decreases |list|
  {
    if list != [] {
      var front, last := list[..|list| - 1], list[|list| - 1];
      assert list == front + [last];
      assert last in SetOf(list);
      forall y ensures y in SetOf(front) <==> y in ids && y != last {
        assert y in list <==> y in front || y == last;
      }
      OnceEach(front, ids - {last}, x);
    }
  }

  /** What the two readings of an attempt yield at the re-check. */
  predicate ReadLike(s: State, t: Id, l: EC.Links)
    requires InPhase(s, t) && s.txs[t].phase.Holding?
  {
    ListsOnce(l.before, s.txs[t].phase.seen.Keys) && ListsOnce(l.locked, Linked(s.db.table, s.txs[t].target).Keys)
  }

  /**
   The method's comparison of two readings is this machine's re-check, and the method
   tries again exactly when the machine does: `RejectMalware` goes on to its next pair
   while the machine goes back to reading links, and both give up after the third.
   */
  lemma LoopIsRechecks(s: State, t: Id, l: EC.Links)
    requires InPhase(s, t) && s.txs[t].phase.Holding? && ReadLike(s, t, l)
    ensures var after := Rechecked(s, t).txs;
            && (EC.SameLinks(l) <==> t in after && after[t].phase.Checked?)
            && (!EC.SameLinks(l) && s.txs[t].attempt < 2 ==>
                  t in after && after[t].phase.Loaded? && after[t].attempt == s.txs[t].attempt + 1)
            && (!EC.SameLinks(l) && s.txs[t].attempt == 2 ==> t !in after)
  {
    var seen, linked := s.txs[t].phase.seen.Keys, Linked(s.db.table, s.txs[t].target).Keys;
    forall x ensures multiset(l.before)[x] == (if x in seen then 1 else 0)
             ensures multiset(l.locked)[x] == (if x in linked then 1 else 0)
    {
      OnceEach(l.before, seen, x);
      OnceEach(l.locked, linked, x);
    }
    if EC.SameLinks(l) {
      forall x ensures x in seen <==> x in linked {
        assert multiset(l.before)[x] == multiset(l.locked)[x];
      }
    }
    if seen == linked {
      assert multiset(l.before) == multiset(l.locked);
    }
  }
}
