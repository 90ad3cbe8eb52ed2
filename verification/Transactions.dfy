/** Every transaction of the operations service keeps the lockstep invariant and only moves records forward. */
module Transactions {
  import opened Domain
  import opened Strings
  import opened Execution
  import opened Staleness
  import opened Resources
  import opened Approvals
  import opened Operations
  import opened Lockstep

  /** Replacing one operation and its reservation together. */
  lemma MoveKeepsDb(x: Db, o: nat, op: Operation, row: Reservation, now: int)
    requires DbInv(x) && o < |x.ops| && o < |x.ledger.rows|
    requires OpAdvances(x.ops[o], op) && Stage(x.ops[o].state) < 3 && op.dispatch == x.ops[o].dispatch
    requires row.envelope == x.ledger.rows[o].envelope && row.amount == x.ledger.rows[o].amount
    requires row.state == ReservationFor(op.state) && row.actual == op.cost
    requires (op.cost.Some? <==> Confirmed(op.state)) && (op.cost.Some? ==> 0 <= op.cost.value)
    requires op.reconcile <==> op.state == OutcomeUncertain
    requires op.dispatch.Some? <==> op.state != Prepared && op.state != OperationCancelled
    ensures
      var y := x.(ops := x.ops[o := op], ledger := x.ledger.(rows := x.ledger.rows[o := row]));
      DbInv(y) && DbAdvances(x, now, y, now)
  {
    var y := x.(ops := x.ops[o := op], ledger := x.ledger.(rows := x.ledger.rows[o := row]));
    assert OpOk(x, o);
    UpdateKeepsBudget(x.ledger, o, row);
    assert OpOk(y, o);
    TouchKeepsDb(x, y, o, now);
  }

  lemma CancelKeepsDb(x: Db, o: nat, now: int)
    requires DbInv(x) && o < |x.ops| && x.ops[o].state == Prepared
    ensures CancelOperation(x, o).Ok?
    ensures DbInv(CancelOperation(x, o).value) && DbAdvances(x, now, CancelOperation(x, o).value, now)
    ensures CancelOperation(x, o).value.ops == x.ops[o := x.ops[o].(state := OperationCancelled)]
    ensures CancelOperation(x, o).value.slots == x.slots && CancelOperation(x, o).value.exec == x.exec
    ensures CancelOperation(x, o).value.ledger.limits == x.ledger.limits
  {
    assert OpOk(x, o);
    MoveKeepsDb(x, o, x.ops[o].(state := OperationCancelled), x.ledger.rows[o].(state := Released), now);
  }

  lemma SettleKeepsDb(x: Db, o: nat, out: ProviderOutcome, now: int)
    requires DbInv(x) && SettleTx(x, o, out).Ok?
    ensures DbInv(SettleTx(x, o, out).value) && DbAdvances(x, now, SettleTx(x, o, out).value, now)
  {
    assert OpOk(x, o);
    if x.ops[o].state != out.state {
      MoveKeepsDb(x, o,
        x.ops[o].(state := out.state, cost := Some(out.cost), reference := Trim(out.reference), reconcile := false),
        x.ledger.rows[o].(state := Settled, actual := Some(out.cost)), now);
    } else {
      StillAdvances(x, now, now);
    }
  }

  lemma MarkUnknownKeepsDb(x: Db, o: nat, now: int)
    requires DbInv(x) && MarkUnknownTx(x, o).Ok?
    ensures DbInv(MarkUnknownTx(x, o).value) && DbAdvances(x, now, MarkUnknownTx(x, o).value, now)
  {
    assert OpOk(x, o);
    if Confirmed(x.ops[o].state) {
      StillAdvances(x, now, now);
    } else {
      MoveKeepsDb(x, o, x.ops[o].(state := OutcomeUncertain, reconcile := true),
        x.ledger.rows[o].(state := Unresolved), now);
      if x.ops[o].state == OutcomeUncertain {
        assert x.ledger.rows[o := x.ledger.rows[o].(state := Unresolved)] == x.ledger.rows;
      }
    }
  }

  /** Rows only added: nothing that existed has moved. */
  lemma GrowthAdvances(x: Db, n: int, y: Db, m: int)
    requires OpsInv(x) && n <= m && y.exec == x.exec
    requires x.approvals <= y.approvals && x.slots <= y.slots && x.ops <= y.ops
    ensures DbAdvances(x, n, y, m)
  {
    WaitingAdvances(x.exec, n, m);
    forall a: nat | a < |x.approvals| ensures ApprovalAdvances(x.approvals[a], y.approvals[a]) {
      assert y.approvals[a] == x.approvals[a];
    }
    forall o: nat | o < |x.ops| ensures OpAdvances(x.ops[o], y.ops[o]) {
      assert OpOk(x, o) && y.ops[o] == x.ops[o];
    }
  }

  lemma StillAdvances(x: Db, n: int, m: int)
    requires OpsInv(x) && n <= m
    ensures DbAdvances(x, n, x, m)
  {
    GrowthAdvances(x, n, x, m);
  }

  /** The commit consumes the exact approval and leaves everything else in place. */
  lemma CommitKeepsDb(reg: Registry, x: Db, o: nat, a: nat, d: Decision, began: int, now: int)
    requires DbInv(x) && CommitTx(reg, x, o, a, d, began, now).Ok?
    ensures DbInv(CommitTx(reg, x, o, a, d, began, now).value)
    ensures DbAdvances(x, now, CommitTx(reg, x, o, a, d, began, now).value, now)
  {
    var y := CommitTx(reg, x, o, a, d, began, now).value;
    assert OpOk(x, o);
    var approvals := ConsumeFor(x, o, d, now).value;
    if NeedsApproval(d, x.ops[o].caller) {
      var id := x.ops[o].approval.value;
      ConsumeKeepsApprovals(x.approvals, id, x.approvals[id].digest, now);
      assert approvals == x.approvals[id := x.approvals[id].(state := Consumed)];
    }
    assert y.ledger == x.ledger;
    assert OpOk(y, o);
    TouchKeepsDb(x, y, o, now);
  }

  lemma ResolveKeepsDb(x: Db, t: nat, r: PrepareRequest, p: Provider, now: int)
    requires DbInv(x) && t < |x.exec.tasks| && ResolveSlot(x.slots, t, r, p).Ok?
    ensures DbInv(x.(slots := ResolveSlot(x.slots, t, r, p).value))
    ensures DbAdvances(x, now, x.(slots := ResolveSlot(x.slots, t, r, p).value), now)
  {
    var slots := ResolveSlot(x.slots, t, r, p).value;
    var y := x.(slots := slots);
    forall s | 0 <= s < |slots| ensures SlotOk(y, s) { if s < |x.slots| { assert SlotOk(x, s); } }
    forall o | 0 <= o < |y.ops| ensures OpOk(y, o) { assert OpOk(x, o); }
    forall i, j | 0 <= i < j < |y.ops| ensures Succession(y.ops[i], y.ops[j]) { assert Succession(x.ops[i], x.ops[j]); }
    forall a | 0 <= a < |y.approvals| ensures SubjectOk(y, a) { assert SubjectOk(x, a); }
    GrowthAdvances(x, now, y, now);
  }

  /** In a slot whose operations are all spent, the newest has the highest sequence number. */
  ghost predicate Open(db: Db, s: nat) {
    forall o | 0 <= o < |db.ops| && db.ops[o].slot == s :: Spent(db.ops[o].state)
  }

  lemma LatestIsNewest(db: Db, s: nat)
    requires OpsInv(db)
    ensures Latest(db.ops, s).Some? ==>
      forall o: nat | Latest(db.ops, s).value < o < |db.ops| :: db.ops[o].slot != s
    ensures Latest(db.ops, s).Some? ==>
      forall o: nat | o < Latest(db.ops, s).value && db.ops[o].slot == s :: Spent(db.ops[o].state)
  {
    var latest := Latest(db.ops, s);
    if latest.Some? {
      forall o: nat | latest.value < o < |db.ops| ensures db.ops[o].slot != s {
        assert Succession(db.ops[latest.value], db.ops[o]);
      }
      forall o: nat | o < latest.value && db.ops[o].slot == s ensures Spent(db.ops[o].state) {
        assert Succession(db.ops[o], db.ops[latest.value]);
      }
    }
  }

  lemma InsertedRows(x: Db, p: Provider, s: nat, t: nat, r: PrepareRequest, d: Decision, now: int)
    requires DbInv(x) && s < |x.slots| && t < |x.exec.tasks| && r.attempt < |x.exec.attempts|
    requires InsertOperation(x, p, s, t, r, d, now).Ok?
    ensures
      var y := InsertOperation(x, p, s, t, r, d, now).value;
      && y.exec == x.exec && y.slots == x.slots && y.ledger.limits == x.ledger.limits
      && y.ops == x.ops + [NewOperation(x, p, s, t, r, d)]
      && BudgetInv(y.ledger) && |y.ledger.rows| == |x.ledger.rows| + 1 && x.ledger.rows <= y.ledger.rows
      && y.ledger.rows[|x.ops|] == Reservation(x.exec.tasks[t].spec.envelope, Held, r.exposure, None)
      && ApprovalInv(y.approvals) && x.approvals <= y.approvals
      && (if NeedsApproval(d, r.caller)
          then |y.approvals| == |x.approvals| + 1
            && y.approvals[|x.approvals|].subject == ExternalOperation(|x.ops|)
            && y.approvals[|x.approvals|].digest == DigestOf(NewOperation(x, p, s, t, r, d), r.descriptor, r.canonical)
            && y.approvals[|x.approvals|].required == Required(d, r.caller)
            && y.approvals[|x.approvals|].state == Pending
          else y.approvals == x.approvals)
  {
    var op := NewOperation(x, p, s, t, r, d);
    ReserveKeepsBudget(x.ledger, x.exec.tasks[t].spec.envelope, r.exposure, r.control);
    if NeedsApproval(d, r.caller) {
      var request := ApprovalFor(x, op, r, d);
      CreateKeepsApprovals(x.approvals, request, now);
      var found := FindSubject(x.approvals, request.subject, request.digest);
      assert found.Some? ==> !SubjectOk(x, found.value);
    }
  }

  lemma InsertKeepsOps(x: Db, y: Db, p: Provider, s: nat, t: nat, r: PrepareRequest, d: Decision)
    requires DbInv(x) && s < |x.slots| && |y.ledger.rows| == |y.ops|
    requires Open(x, s)
    requires y.ops == x.ops + [NewOperation(x, p, s, t, r, d)]
    requires forall o | 0 <= o < |y.ops| :: OpOk(y, o)
    ensures OpsInv(y)
  {
    forall i, j | 0 <= i < j < |y.ops| ensures Succession(y.ops[i], y.ops[j]) {
      if j < |x.ops| { assert Succession(x.ops[i], x.ops[j]); }
    }
  }

  lemma GrowthKeepsOp(x: Db, y: Db, o: nat)
    requires OpsInv(x) && o < |x.ops|
    requires y.exec == x.exec && y.slots == x.slots && x.ops <= y.ops && x.ledger.rows <= y.ledger.rows && x.approvals <= y.approvals
    ensures o < |y.ops| && o < |y.ledger.rows| && OpOk(y, o)
  {
    assert OpOk(x, o);
    assert y.ops[o] == x.ops[o] && y.ledger.rows[o] == x.ledger.rows[o];
    if x.ops[o].approval.Some? {
      assert y.approvals[x.ops[o].approval.value] == x.approvals[x.ops[o].approval.value];
    }
  }

  lemma InsertedOps(x: Db, p: Provider, s: nat, t: nat, r: PrepareRequest, d: Decision, now: int)
    requires DbInv(x) && s < |x.slots| && t < |x.exec.tasks| && r.attempt < |x.exec.attempts|
    requires x.exec.attempts[r.attempt].task == t && x.slots[s].task == t
    requires x.slots[s].fingerprint == FingerprintOf(p, r.descriptor, r.canonical)
    requires x.slots[s].descriptor == r.descriptor && x.slots[s].provider == p.name
    requires InsertOperation(x, p, s, t, r, d, now).Ok?
    ensures
      var y := InsertOperation(x, p, s, t, r, d, now).value;
      |y.ops| == |y.ledger.rows| && forall o: nat | o < |y.ops| :: OpOk(y, o)
  {
    var y := InsertOperation(x, p, s, t, r, d, now).value;
    InsertedRows(x, p, s, t, r, d, now);
    assert SlotOk(x, s);
    forall o: nat | o < |x.ops| ensures OpOk(y, o) { GrowthKeepsOp(x, y, o); }
    assert OpOk(y, |x.ops|);
  }

  lemma InsertKeepsDb(x: Db, p: Provider, s: nat, t: nat, r: PrepareRequest, d: Decision, now: int)
    requires DbInv(x) && s < |x.slots| && t < |x.exec.tasks| && r.attempt < |x.exec.attempts|
    requires x.exec.attempts[r.attempt].task == t && x.slots[s].task == t
    requires x.slots[s].fingerprint == FingerprintOf(p, r.descriptor, r.canonical)
    requires x.slots[s].descriptor == r.descriptor && x.slots[s].provider == p.name
    requires Open(x, s)
    requires InsertOperation(x, p, s, t, r, d, now).Ok?
    ensures DbInv(InsertOperation(x, p, s, t, r, d, now).value)
    ensures InsertOperation(x, p, s, t, r, d, now).value.exec == x.exec
    ensures InsertOperation(x, p, s, t, r, d, now).value.ledger.limits == x.ledger.limits
    ensures DbAdvances(x, now, InsertOperation(x, p, s, t, r, d, now).value, now)
  {
    var y := InsertOperation(x, p, s, t, r, d, now).value;
    InsertedRows(x, p, s, t, r, d, now);
    InsertedOps(x, p, s, t, r, d, now);
    InsertKeepsOps(x, y, p, s, t, r, d);
    forall q | 0 <= q < |y.slots| ensures SlotOk(y, q) { assert SlotOk(x, q); }
    forall a | 0 <= a < |y.approvals| ensures SubjectOk(y, a) { if a < |x.approvals| { assert SubjectOk(x, a); } }
    GrowthAdvances(x, now, y, now);
  }

  /** A prepared operation that no longer fits is withdrawn, and another takes its place. */
  lemma ReplaceKeepsDb(x: Db, p: Provider, s: nat, t: nat, r: PrepareRequest, d: Decision, now: int, o: nat)
    requires DbInv(x) && s < |x.slots| && t < |x.exec.tasks| && r.attempt < |x.exec.attempts|
    requires x.exec.attempts[r.attempt].task == t && x.slots[s].task == t
    requires x.slots[s].fingerprint == FingerprintOf(p, r.descriptor, r.canonical)
    requires x.slots[s].descriptor == r.descriptor && x.slots[s].provider == p.name
    requires Latest(x.ops, s) == Some(o) && x.ops[o].state == Prepared
    requires CancelOperation(x, o).Ok? && InsertOperation(CancelOperation(x, o).value, p, s, t, r, d, now).Ok?
    ensures
      var y := InsertOperation(CancelOperation(x, o).value, p, s, t, r, d, now).value;
      DbInv(y) && y.exec == x.exec && y.ledger.limits == x.ledger.limits && DbAdvances(x, now, y, now)
  {
    var cancelled := CancelOperation(x, o).value;
    var y := InsertOperation(cancelled, p, s, t, r, d, now).value;
    CancelKeepsDb(x, o, now);
    LatestIsNewest(x, s);
    assert Open(cancelled, s);
    InsertKeepsDb(cancelled, p, s, t, r, d, now);
    DbAdvancesTransitive(x, now, cancelled, now, y, now);
  }

  lemma PrepareInSlotKeepsDb(x: Db, p: Provider, s: nat, t: nat, r: PrepareRequest, d: Decision, now: int)
    requires DbInv(x) && s < |x.slots| && t < |x.exec.tasks| && r.attempt < |x.exec.attempts|
    requires x.exec.attempts[r.attempt].task == t && x.slots[s].task == t
    requires x.slots[s].fingerprint == FingerprintOf(p, r.descriptor, r.canonical)
    requires x.slots[s].descriptor == r.descriptor && x.slots[s].provider == p.name
    requires PrepareInSlot(x, p, s, t, r, d, now).Ok?
    ensures DbInv(PrepareInSlot(x, p, s, t, r, d, now).value)
    ensures PrepareInSlot(x, p, s, t, r, d, now).value.exec == x.exec
    ensures PrepareInSlot(x, p, s, t, r, d, now).value.ledger.limits == x.ledger.limits
    ensures DbAdvances(x, now, PrepareInSlot(x, p, s, t, r, d, now).value, now)
  {
    var y := PrepareInSlot(x, p, s, t, r, d, now).value;
    LatestIsNewest(x, s);
    var latest := Latest(x.ops, s);
    if y == x {
      StillAdvances(x, now, now);
    } else if latest.Some? && x.ops[latest.value].state == Prepared {
      ReplaceKeepsDb(x, p, s, t, r, d, now, latest.value);
    } else {
      assert Open(x, s);
      InsertKeepsDb(x, p, s, t, r, d, now);
    }
  }

  lemma PrepareKeepsDb(reg: Registry, x: Db, r: PrepareRequest, d: Decision, began: int, now: int)
    requires DbInv(x) && PrepareTx(reg, x, r, d, began, now).Ok?
    ensures DbInv(PrepareTx(reg, x, r, d, began, now).value)
    ensures PrepareTx(reg, x, r, d, began, now).value.exec == x.exec
    ensures PrepareTx(reg, x, r, d, began, now).value.ledger.limits == x.ledger.limits
    ensures DbAdvances(x, now, PrepareTx(reg, x, r, d, began, now).value, now)
  {
    var t := Guard(x.exec, r.attempt, now).value;
    var p := reg[r.provider];
    var resolved := x.(slots := ResolveSlot(x.slots, t, r, p).value);
    ResolveKeepsDb(x, t, r, p, now);
    PrepareInSlotKeepsDb(resolved, p, SlotId(x.slots, t, r.key), t, r, d, now);
    DbAdvancesTransitive(x, now, resolved, now, PrepareTx(reg, x, r, d, began, now).value, now);
  }

  // ----- what prepare does to the operations -----

  /** The operations a prepare call builds on: those there were, with a prepared one that no longer fits withdrawn. */
  function Cleared(ops: seq<Operation>, s: nat): seq<Operation> {
    var latest := Latest(ops, s);
    if latest.Some? && ops[latest.value].state == Prepared
    then ops[latest.value := ops[latest.value].(state := OperationCancelled)] else ops
  }

  predicate Answerable(db: Db, s: nat, r: PrepareRequest, d: Decision) {
    var latest := Latest(db.ops, s);
    && latest.Some?
    && match db.ops[latest.value].state
       case Prepared => StillMatches(db, latest.value, r, d)
       case ConfirmedNoEffect => false
       case OperationCancelled => false
       case _ => true
  }

  lemma InsertedShape(x: Db, p: Provider, s: nat, t: nat, r: PrepareRequest, d: Decision, now: int)
    requires s < |x.slots| && t < |x.exec.tasks| && r.attempt < |x.exec.attempts|
    requires InsertOperation(x, p, s, t, r, d, now).Ok?
    ensures
      var ops := InsertOperation(x, p, s, t, r, d, now).value.ops;
      && |ops| == |x.ops| + 1 && ops[..|x.ops|] == x.ops
      && ops[|x.ops|].slot == s && ops[|x.ops|].attempt == r.attempt && ops[|x.ops|].state == Prepared
      && ops[|x.ops|].dispatch.None? && Latest(ops, s) == Some(|x.ops|)
  {
    var ops := InsertOperation(x, p, s, t, r, d, now).value.ops;
    assert ops[..|ops| - 1] == x.ops;
  }

  /** Either the slot's latest operation answers the call and nothing changes, or one prepared operation is added
      and becomes the latest. */
  lemma PrepareInSlotShape(x: Db, p: Provider, s: nat, t: nat, r: PrepareRequest, d: Decision, now: int)
    requires s < |x.slots| && t < |x.exec.tasks| && r.attempt < |x.exec.attempts|
    requires PrepareInSlot(x, p, s, t, r, d, now).Ok?
    ensures Answerable(x, s, r, d) ==> PrepareInSlot(x, p, s, t, r, d, now) == Ok(x)
    ensures
      var y := PrepareInSlot(x, p, s, t, r, d, now).value;
      !Answerable(x, s, r, d) ==>
        && |y.ops| == |x.ops| + 1
        && y.ops[..|x.ops|] == Cleared(x.ops, s)
        && y.ops[|x.ops|].slot == s && y.ops[|x.ops|].attempt == r.attempt && y.ops[|x.ops|].state == Prepared
        && y.ops[|x.ops|].dispatch.None?
        && Latest(y.ops, s) == Some(|x.ops|)
  {
    if !Answerable(x, s, r, d) {
      var latest := Latest(x.ops, s);
      if latest.Some? && x.ops[latest.value].state == Prepared {
        InsertedShape(CancelOperation(x, latest.value).value, p, s, t, r, d, now);
      } else {
        InsertedShape(x, p, s, t, r, d, now);
      }
    }
  }
}
