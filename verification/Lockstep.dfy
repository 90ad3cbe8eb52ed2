/** The invariant that ties operations, reservations, approvals and effect slots together, kept by every
    transaction of the operations service. */
module Lockstep {
  import opened Domain
  import opened Leases
  import opened Staleness
  import opened Resources
  import opened Approvals
  import opened Operations

  predicate Spent(s: OperationState) {
    s == OperationCancelled || s == ConfirmedNoEffect
  }

  /** Which reservation state an operation state goes with. */
  function ReservationFor(s: OperationState): ReservationState {
    match s
    case Prepared => Held
    case Dispatched => Held
    case OutcomeUncertain => Unresolved
    case ConfirmedEffect => Settled
    case ConfirmedNoEffect => Settled
    case OperationCancelled => Released
  }

  ghost predicate ReservationOk(db: Db, o: nat)
    requires o < |db.ops| && o < |db.ledger.rows|
  {
    var op, row := db.ops[o], db.ledger.rows[o];
    && op.reservation == o
    && row.state == ReservationFor(op.state)
    && row.actual == op.cost
    && (op.cost.Some? <==> Confirmed(op.state))
    && (op.cost.Some? ==> 0 <= op.cost.value)
    && (op.reconcile <==> op.state == OutcomeUncertain)
    && (op.dispatch.Some? <==> op.state != Prepared && op.state != OperationCancelled)
  }

  ghost predicate IdentityOk(db: Db, o: nat)
    requires o < |db.ops|
  {
    var op := db.ops[o];
    && op.task < |db.exec.tasks|
    && op.attempt < |db.exec.attempts| && db.exec.attempts[op.attempt].task == op.task
    && op.slot < |db.slots| && db.slots[op.slot].task == op.task
    && op.fingerprint == db.slots[op.slot].fingerprint
    && op.revision == db.slots[op.slot].revision
    && op.provider == db.slots[op.slot].provider
  }

  /** The approval an operation refers to is bound to it, and consumed exactly when the operation was dispatched. */
  ghost predicate ApprovalBound(db: Db, o: nat)
    requires o < |db.ops| && db.ops[o].slot < |db.slots|
  {
    var op := db.ops[o];
    && (op.approval.Some? <==> NeedsApproval(op.prepare, op.caller))
    && (op.dispatch.Some? ==> Permits(op.dispatch.value) && (op.approval.Some? <==> NeedsApproval(op.dispatch.value, op.caller)))
    && (op.approval.Some? ==>
          && op.approval.value < |db.approvals|
          && var a := db.approvals[op.approval.value];
          && a.subject == ExternalOperation(o)
          && a.digest == DigestOf(op, db.slots[op.slot].descriptor, db.slots[op.slot].canonical)
          && a.required == Required(op.prepare, op.caller)
          && (op.dispatch.Some? ==> a.required == Required(op.dispatch.value, op.caller))
          && (a.state == Consumed <==> op.dispatch.Some?))
  }

  ghost predicate OpOk(db: Db, o: nat)
    requires o < |db.ops| && o < |db.ledger.rows|
  {
    ReservationOk(db, o) && IdentityOk(db, o) && ApprovalBound(db, o)
  }

  ghost predicate SlotOk(db: Db, s: nat)
    requires s < |db.slots|
  {
    var slot := db.slots[s];
    && slot.task < |db.exec.tasks| && slot.revision == 1
    && slot.fingerprint.provider == slot.provider && slot.fingerprint.descriptor == slot.descriptor
    && slot.fingerprint.intent == slot.canonical
  }

  /** One operation of a slot follows another only after the earlier one is spent. */
  ghost predicate Succession(p: Operation, q: Operation) {
    p.slot == q.slot ==> p.sequence < q.sequence && Spent(p.state)
  }

  ghost predicate OpsInv(db: Db) {
    && |db.ledger.rows| == |db.ops|
    && (forall o | 0 <= o < |db.ops| :: OpOk(db, o))
    && (forall i, j | 0 <= i < j < |db.ops| :: Succession(db.ops[i], db.ops[j]))
  }

  ghost predicate SlotsInv(db: Db) {
    && (forall s | 0 <= s < |db.slots| :: SlotOk(db, s))
    && (forall r, s | 0 <= r < s < |db.slots| :: db.slots[r].task != db.slots[s].task || db.slots[r].key != db.slots[s].key)
  }

  ghost predicate SubjectOk(db: Db, a: nat)
    requires a < |db.approvals|
  {
    db.approvals[a].subject.ExternalOperation? ==>
      var o := db.approvals[a].subject.operation;
      o < |db.ops| && db.ops[o].approval == Some(a)
  }

  ghost predicate DbInv(db: Db) {
    && LeaseInv(db.exec)
    && BudgetInv(db.ledger)
    && ApprovalInv(db.approvals)
    && SlotsInv(db)
    && OpsInv(db)
    && (forall a | 0 <= a < |db.approvals| :: SubjectOk(db, a))
  }

  // ----- how one operation may move -----

  function Stage(s: OperationState): nat {
    match s
    case Prepared => 0
    case Dispatched => 1
    case OutcomeUncertain => 2
    case _ => 3
  }

  predicate SameIdentity(p: Operation, q: Operation) {
    && p.task == q.task && p.attempt == q.attempt && p.slot == q.slot && p.sequence == q.sequence
    && p.fingerprint == q.fingerprint && p.revision == q.revision && p.provider == q.provider
    && p.reservation == q.reservation && p.approval == q.approval && p.caller == q.caller
    && p.risk == q.risk && p.prepare == q.prepare
  }

  /** Forward only, with confirmed and cancelled operations frozen. */
  ghost predicate OpAdvances(p: Operation, q: Operation) {
    && SameIdentity(p, q)
    && Stage(p.state) <= Stage(q.state)
    && (Stage(p.state) == 3 ==> q == p)
    && (p.dispatch.Some? ==> q.dispatch == p.dispatch && q.state != OperationCancelled)
  }

  ghost predicate DbAdvances(x: Db, n: int, y: Db, m: int) {
    && Advances(x.exec, n, y.exec, m)
    && ApprovalsAdvance(x.approvals, y.approvals)
    && x.slots <= y.slots
    && |x.ops| <= |y.ops|
    && (forall o | 0 <= o < |x.ops| :: OpAdvances(x.ops[o], y.ops[o]))
  }

  lemma DbAdvancesTransitive(x: Db, n: int, y: Db, m: int, z: Db, k: int)
    requires DbAdvances(x, n, y, m) && DbAdvances(y, m, z, k)
    ensures DbAdvances(x, n, z, k)
  {
    AdvancesTransitive(x.exec, n, y.exec, m, z.exec, k);
    ApprovalsAdvanceTransitive(x.approvals, y.approvals, z.approvals);
    forall o | 0 <= o < |x.ops| ensures OpAdvances(x.ops[o], z.ops[o]) {
      assert OpAdvances(x.ops[o], y.ops[o]) && OpAdvances(y.ops[o], z.ops[o]);
    }
  }

  // ----- updating one operation with its reservation and approval -----

  /** Database y differs from x in operation o, in its reservation and in its approval, and in nothing else. */
  ghost predicate Touches(x: Db, y: Db, o: nat) {
    && y.exec == x.exec && y.slots == x.slots && y.ledger.limits == x.ledger.limits
    && o < |x.ops| && |y.ops| == |x.ops| && |y.ledger.rows| == |x.ledger.rows| && |y.approvals| == |x.approvals|
    && (forall p | 0 <= p < |x.ops| && p != o :: y.ops[p] == x.ops[p])
    && (forall p | 0 <= p < |x.ledger.rows| && p != o :: y.ledger.rows[p] == x.ledger.rows[p])
    && (forall a: nat | a < |x.approvals| && x.ops[o].approval != Some(a) :: y.approvals[a] == x.approvals[a])
  }

  lemma TouchKeepsOthers(x: Db, y: Db, o: nat, p: nat)
    requires DbInv(x) && Touches(x, y, o) && p < |x.ops| && p != o
    ensures p < |y.ops| && p < |y.ledger.rows| && OpOk(y, p)
  {
    assert OpOk(x, p) && OpOk(x, o);
  }

  lemma TouchKeepsDb(x: Db, y: Db, o: nat, now: int)
    requires DbInv(x) && Touches(x, y, o)
    requires OpAdvances(x.ops[o], y.ops[o])
    requires o < |y.ledger.rows| ==> OpOk(y, o)
    requires BudgetInv(y.ledger) && ApprovalInv(y.approvals) && ApprovalsAdvance(x.approvals, y.approvals)
    ensures DbInv(y) && DbAdvances(x, now, y, now)
  {
    forall p | 0 <= p < |y.ops| ensures OpOk(y, p) && OpAdvances(x.ops[p], y.ops[p]) {
      if p != o { TouchKeepsOthers(x, y, o, p); }
    }
    forall i, j | 0 <= i < j < |y.ops| ensures Succession(y.ops[i], y.ops[j]) {
      assert Succession(x.ops[i], x.ops[j]);
    }
    forall s | 0 <= s < |y.slots| ensures SlotOk(y, s) { assert SlotOk(x, s); }
    forall a | 0 <= a < |y.approvals| ensures SubjectOk(y, a) {
      assert SubjectOk(x, a);
      assert ApprovalAdvances(x.approvals[a], y.approvals[a]);
    }
    WaitingAdvances(x.exec, now, now);
  }
}
