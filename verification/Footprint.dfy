/**
 The rows an endpoint locks, taken from its lock program, and what they are worth:
 whatever other transactions commit meanwhile, the rows a transaction's locks guard
 stay as they are.
 */
module Footprint {
  import opened Prelude
  import opened PassportValues
  import opened PassportTables
  import opened PassportSteps
  import PR = PassportRuns
  import LO = LockOrder

  type Lock = LO.Lock

  // ---- the locks of a step ----

  /** The model whose lock guards an owner. */
  function Guard(db: Db, owner: Owner): Option<Id> {
    match owner
    case OfModel(m) => Some(m)
    case OfItem(i) => if i in db.items then Some(db.items[i].model) else None
  }

  function ModelIn(db: Db): Id -> Id {
    i => if i in db.items then db.items[i].model else 0
  }

  function LockedOwner(owner: Owner): LO.Owner {
    match owner
    case OfModel(m) => LO.OfModel(m)
    case OfItem(i) => LO.OfItem(i)
  }

  /** Some order of the ids. */
  ghost function Listing(ids: set<Id>): (r: seq<Id>)
    ensures forall x :: x in r <==> x in ids
  {
    if ids == {} then []
    else
      var x :| x in ids;
      [x] + Listing(ids - {x})
  }

  function OwnerAt(db: Db, v: Id): Option<Owner> {
    if v < |db.table.values| then Some(db.table.values[v].owner) else None
  }

  /** An unknown item is refused before anything is locked. */
  predicate Lockable(db: Db, owner: Option<Owner>) {
    owner.Some? && Guard(db, owner.value).Some?
  }

  function LinkedGuards(db: Db, evidence: Id): set<Id> {
    set o | o in LinkedOwners(db.table, evidence) && Guard(db, o).Some? :: Guard(db, o).value
  }

  ghost function ValueEndpoint(db: Db, owner: Option<Owner>): LO.Endpoint {
    if Lockable(db, owner) then LO.WriteValue(LockedOwner(owner.value), Listing(db.items.Keys)) else LO.ReadOnly
  }

  function ItemEndpoint(db: Db, item: Id): LO.Endpoint {
    if item in db.items then LO.UseItem(item) else LO.ReadOnly
  }

  /** Creating rows takes no explicit lock. */
  ghost function EndpointOf(db: Db, step: PR.Step): LO.Endpoint {
    var rows := Listing(db.items.Keys);
    match step
    case StepCreate(owner, _, _, _, _, _) => ValueEndpoint(db, Some(owner))
    case StepConfirm(v, _) => ValueEndpoint(db, OwnerAt(db, v))
    case StepReject(v, _) => ValueEndpoint(db, OwnerAt(db, v))
    case StepLink(e, v) =>
      if Lockable(db, OwnerAt(db, v)) then LO.LinkEvidence(LockedOwner(OwnerAt(db, v).value), e, rows) else LO.ReadOnly
    case StepRejectEvidence(e) => LO.RejectMalware(Listing(LinkedGuards(db, e)), e, rows)
    case StepChangeEvidence(e, _) => LO.UseEvidence(e)
    case StepSubmit(r, _, _) => LO.UsePortal(r)
    case StepOpen(r, _) => LO.UsePortal(r)
    case StepAccept(r, _, _) =>
      if r in db.requests
      then LO.AcceptRequest(db.requests[r].model, r, Listing(EvidenceIn(db.requests[r].submissions)), rows)
      else LO.ReadOnly
    case StepEvent(i, _, _, _) => ItemEndpoint(db, i)
    case StepIngest(i, _) => ItemEndpoint(db, i)
    case StepValidate(i, _) => ItemEndpoint(db, i)
    case StepPublish(i, _, _, _, _) => ItemEndpoint(db, i)
    case StepReview(m, _, _, _) => LO.ReviewModel(m, rows)
    case _ => LO.ReadOnly
  }

  /** The locks of the endpoint's program, but for item rows: these lie under their model's lock. */
  ghost function Needs(db: Db, step: PR.Step): set<Lock> {
    LocksIn(LO.Work(ModelIn(db), EndpointOf(db, step)))
  }

  function LocksIn(p: LO.Program): set<Lock> {
    set w | w in p && !w.lock.ItemRow? :: w.lock
  }

  function OwnerLocks(db: Db, owner: Option<Owner>): set<Lock> {
    if Lockable(db, owner) then {LO.ModelRow(Guard(db, owner.value).value)} else {}
  }

  function ItemLocks(db: Db, item: Id): set<Lock> {
    OwnerLocks(db, Some(OfItem(item)))
  }

  function EvidenceLocks(ids: set<Id>): set<Lock> {
    set e | e in ids :: LO.EvidenceRow(e)
  }

  function ModelLocks(ids: set<Id>): set<Lock> {
    set m | m in ids :: LO.ModelRow(m)
  }

  lemma LocksConcat(p: LO.Program, q: LO.Program)
    ensures LocksIn(p + q) == LocksIn(p) + LocksIn(q)
  {
    forall l ensures l in LocksIn(p + q) <==> l in LocksIn(p) + LocksIn(q) {
      if l in LocksIn(p + q) {
        var w :| w in p + q && !w.lock.ItemRow? && w.lock == l;
        assert w in p || w in q;
      }
      if l in LocksIn(p) {
        var w :| w in p && !w.lock.ItemRow? && w.lock == l;
        assert w in p + q;
      }
      if l in LocksIn(q) {
        var w :| w in q && !w.lock.ItemRow? && w.lock == l;
        assert w in p + q;
      }
    }
  }

  lemma WrittenLocks(modelOf: Id -> Id, models: seq<Id>, rows: seq<Id>)
    ensures LocksIn(LO.Written(modelOf, models, rows)) == {}
  {
  }

  lemma OneLock(w: LO.Want)
    ensures LocksIn([w]) == if w.lock.ItemRow? then {} else {w.lock}
  {
    assert w in [w];
  }

  lemma DocumentsLocks(ids: seq<Id>)
    ensures LocksIn(LO.Documents(LO.SortedOnce(ids))) == EvidenceLocks(SetOf(ids))
  {
    LO.SortedOnceSorts(ids);
    var sorted := LO.SortedOnce(ids);
    var p := LO.Documents(sorted);
    forall l ensures l in LocksIn(p) <==> l in EvidenceLocks(SetOf(ids)) {
      if l in EvidenceLocks(SetOf(ids)) {
        var k :| 0 <= k < |sorted| && sorted[k] == l.id;
        assert p[k] in p;
      }
    }
  }

  lemma ModelsLocks(ids: seq<Id>)
    ensures LocksIn(LO.Models(LO.SortedOnce(ids))) == ModelLocks(SetOf(ids))
  {
    LO.SortedOnceSorts(ids);
    var sorted := LO.SortedOnce(ids);
    var p := LO.Models(sorted);
    forall l ensures l in LocksIn(p) <==> l in ModelLocks(SetOf(ids)) {
      if l in ModelLocks(SetOf(ids)) {
        var k :| 0 <= k < |sorted| && sorted[k] == l.id;
        assert p[k] in p;
      }
    }
  }

  lemma OwnerProgram(db: Db, owner: Owner)
    requires Guard(db, owner).Some?
    ensures LocksIn(LO.LockOwner(ModelIn(db), LockedOwner(owner))) == {LO.ModelRow(Guard(db, owner).value)}
  {
    match owner
    case OfModel(m) => OneLock(LO.Want(LO.ModelRow(m), LO.Exclusive));
    case OfItem(i) =>
      var first, second := LO.Want(LO.ModelRow(db.items[i].model), LO.Exclusive), LO.Want(LO.ItemRow(i), LO.Exclusive);
      assert LO.LockOwner(ModelIn(db), LockedOwner(owner)) == [first] + [second];
      LocksConcat([first], [second]);
      OneLock(first);
      OneLock(second);
  }

  lemma ValueProgram(db: Db, owner: Option<Owner>)
    ensures LocksIn(LO.Work(ModelIn(db), ValueEndpoint(db, owner))) == OwnerLocks(db, owner)
  {
    if Lockable(db, owner) {
      var o, rows := LockedOwner(owner.value), Listing(db.items.Keys);
      var written := LO.Written(ModelIn(db), [LO.OwnerModel(ModelIn(db), o)], rows);
      LocksConcat(LO.LockOwner(ModelIn(db), o), written);
      WrittenLocks(ModelIn(db), [LO.OwnerModel(ModelIn(db), o)], rows);
      OwnerProgram(db, owner.value);
    }
  }

  lemma LinkProgram(db: Db, owner: Owner, evidence: Id, rows: seq<Id>)
    requires Guard(db, owner).Some?
    ensures LocksIn(LO.Work(ModelIn(db), LO.LinkEvidence(LockedOwner(owner), evidence, rows))) ==
            OwnerLocks(db, Some(owner)) + EvidenceLocks({evidence})
  {
    var o, want := LockedOwner(owner), LO.Want(LO.EvidenceRow(evidence), LO.Exclusive);
    var models := [LO.OwnerModel(ModelIn(db), o)];
    var first := LO.LockOwner(ModelIn(db), o);
    LocksConcat(first + [want], LO.Written(ModelIn(db), models, rows));
    LocksConcat(first, [want]);
    WrittenLocks(ModelIn(db), models, rows);
    OwnerProgram(db, owner);
    OneLock(want);
  }

  lemma AcceptProgram(modelOf: Id -> Id, model: Id, request: Id, documents: seq<Id>, rows: seq<Id>)
    ensures LocksIn(LO.Work(modelOf, LO.AcceptRequest(model, request, documents, rows))) ==
            {LO.ModelRow(model), LO.RequestRow(request)} + EvidenceLocks(SetOf(documents))
  {
    var first, second := LO.Want(LO.ModelRow(model), LO.Exclusive), LO.Want(LO.RequestRow(request), LO.Exclusive);
    var held := LO.Documents(LO.SortedOnce(documents));
    LocksConcat([first, second] + held, LO.Written(modelOf, [model], rows));
    LocksConcat([first, second], held);
    assert [first, second] == [first] + [second];
    LocksConcat([first], [second]);
    OneLock(first);
    OneLock(second);
    DocumentsLocks(documents);
    WrittenLocks(modelOf, [model], rows);
  }

  lemma RejectProgram(modelOf: Id -> Id, linked: seq<Id>, evidence: Id, rows: seq<Id>)
    ensures LocksIn(LO.Work(modelOf, LO.RejectMalware(linked, evidence, rows))) ==
            ModelLocks(SetOf(linked)) + {LO.EvidenceRow(evidence)}
  {
    var models, want := LO.Models(LO.SortedOnce(linked)), LO.Want(LO.EvidenceRow(evidence), LO.Exclusive);
    LocksConcat(models + [want], LO.Written(modelOf, LO.SortedOnce(linked), rows));
    LocksConcat(models, [want]);
    WrittenLocks(modelOf, LO.SortedOnce(linked), rows);
    ModelsLocks(linked);
    OneLock(want);
  }

  lemma SmallPrograms(modelOf: Id -> Id, id: Id, rows: seq<Id>)
    ensures LocksIn(LO.Work(modelOf, LO.UsePortal(id))) == {LO.RequestRow(id)}
    ensures LocksIn(LO.Work(modelOf, LO.UseEvidence(id))) == {LO.EvidenceRow(id)}
    ensures LocksIn(LO.Work(modelOf, LO.ReviewModel(id, rows))) == {LO.ModelRow(id)}
    ensures LocksIn(LO.Work(modelOf, LO.ReadOnly)) == {}
  {
    OneLock(LO.Want(LO.RequestRow(id), LO.Exclusive));
    OneLock(LO.Want(LO.EvidenceRow(id), LO.Exclusive));
    OneLock(LO.Want(LO.ModelRow(id), LO.Exclusive));
    LocksConcat([LO.Want(LO.ModelRow(id), LO.Exclusive)], LO.Written(modelOf, [id], rows));
    WrittenLocks(modelOf, [id], rows);
  }

  /** What the programs come to, step by step. */
  lemma NeedsAre(db: Db, step: PR.Step)
    ensures Needs(db, step) ==
            match step
            case StepCreate(owner, _, _, _, _, _) => OwnerLocks(db, Some(owner))
            case StepConfirm(v, _) => OwnerLocks(db, OwnerAt(db, v))
            case StepReject(v, _) => OwnerLocks(db, OwnerAt(db, v))
            case StepLink(e, v) =>
              if Lockable(db, OwnerAt(db, v)) then OwnerLocks(db, OwnerAt(db, v)) + EvidenceLocks({e}) else {}
            case StepRejectEvidence(e) => ModelLocks(LinkedGuards(db, e)) + {LO.EvidenceRow(e)}
            case StepChangeEvidence(e, _) => {LO.EvidenceRow(e)}
            case StepSubmit(r, _, _) => {LO.RequestRow(r)}
            case StepOpen(r, _) => {LO.RequestRow(r)}
            case StepAccept(r, _, _) =>
              if r !in db.requests then {}
              else {LO.ModelRow(db.requests[r].model), LO.RequestRow(r)}
                   + EvidenceLocks(EvidenceIn(db.requests[r].submissions))
            case StepEvent(i, _, _, _) => ItemLocks(db, i)
            case StepIngest(i, _) => ItemLocks(db, i)
            case StepValidate(i, _) => ItemLocks(db, i)
            case StepPublish(i, _, _, _, _) => ItemLocks(db, i)
            case StepReview(m, _, _, _) => {LO.ModelRow(m)}
            case _ => {}
  {
    hide LocksIn, LO.SortedOnce, LO.Work, OwnerLocks, EvidenceLocks, ModelLocks, EvidenceIn, LinkedGuards;
    var rows := Listing(db.items.Keys);
    SmallPrograms(ModelIn(db), 0, rows);
    match step
    case StepCreate(owner, _, _, _, _, _) => ValueProgram(db, Some(owner));
    case StepConfirm(v, _) => ValueProgram(db, OwnerAt(db, v));
    case StepReject(v, _) => ValueProgram(db, OwnerAt(db, v));
    case StepLink(e, v) =>
      if Lockable(db, OwnerAt(db, v)) {
        LinkProgram(db, OwnerAt(db, v).value, e, rows);
      }
    case StepRejectEvidence(e) =>
      RejectProgram(ModelIn(db), Listing(LinkedGuards(db, e)), e, rows);
      assert SetOf(Listing(LinkedGuards(db, e))) == LinkedGuards(db, e);
    case StepChangeEvidence(e, _) => SmallPrograms(ModelIn(db), e, rows);
    case StepSubmit(r, _, _) => SmallPrograms(ModelIn(db), r, rows);
    case StepOpen(r, _) => SmallPrograms(ModelIn(db), r, rows);
    case StepAccept(r, _, _) =>
      if r in db.requests {
        var documents := EvidenceIn(db.requests[r].submissions);
        AcceptProgram(ModelIn(db), db.requests[r].model, r, Listing(documents), rows);
        assert SetOf(Listing(documents)) == documents;
      }
    case StepEvent(i, _, _, _) => ItemProgram(db, i);
    case StepIngest(i, _) => ItemProgram(db, i);
    case StepValidate(i, _) => ItemProgram(db, i);
    case StepPublish(i, _, _, _, _) => ItemProgram(db, i);
    case StepReview(m, _, _, _) => SmallPrograms(ModelIn(db), m, rows);
    case _ =>
  }

  lemma ItemProgram(db: Db, item: Id)
    ensures LocksIn(LO.Work(ModelIn(db), ItemEndpoint(db, item))) == ItemLocks(db, item)
  {
    if item in db.items {
      OwnerProgram(db, OfItem(item));
    }
  }
}
