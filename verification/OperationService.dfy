/** The transactions of the operations service, step by step on the tables. A transaction's body may stop half way
    with an error; its wrapper then puts everything back. */
module OperationService {
  import opened Domain
  import opened Strings
  import opened Execution
  import opened Approvals
  import opened Operations
  import opened Transactions
  import opened Box
  import ResourceService
  import ApprovalService

  // ----- prepare -----

  method ResolveSlotInTx(tx: Box, t: nat, r: PrepareRequest, p: Provider) returns (s: Result<nat>)
    modifies tx`slots
    ensures match ResolveSlot(old(tx.slots), t, r, p)
            case Ok(slots) => s == Ok(SlotId(old(tx.slots), t, r.key)) && tx.slots == slots
            case Err(e) => s == Err(e)
  {
    var fingerprint := FingerprintOf(p, r.descriptor, r.canonical);
    var found := FindSlot(tx.slots, t, r.key);
    if found.Some? {
      var slot := tx.slots[found.value];
      if slot.provider != p.name || slot.descriptor != r.descriptor || slot.fingerprint != fingerprint {
        return Err(IntentConflict);
      }
      return Ok(found.value);
    }
    s := Ok(|tx.slots|);
    tx.slots := tx.slots + [EffectSlot(t, r.key, p.name, r.descriptor, fingerprint, 1, r.canonical, p.adapter, p.semantic)];
  }

  method SetOperation(tx: Box, o: nat, op: Operation)
    requires o < |tx.operations|
    modifies tx`operations
    ensures tx.Data() == WithOp(old(tx.Data()), o, op)
  {
    tx.operations := tx.operations[o := op];
  }

  method CancelInTx(tx: Box, o: nat) returns (r: Result<()>)
    requires o < |tx.operations|
    modifies tx`reservations, tx`operations
    ensures match CancelOperation(old(tx.Data()), o)
            case Ok(db) => r == Ok(()) && tx.Data() == db
            case Err(e) => r == Err(e)
  {
    var op := tx.operations[o];
    var released := ResourceService.ReleaseInTx(tx, op.reservation);
    if released.Err? { return Err(released.error); }
    SetOperation(tx, o, op.(state := OperationCancelled));
    return Ok(());
  }

  /** Reservation, then approval request, then the operation's row, whose insertion checks the active profile. */
  method InsertInTx(tx: Box, p: Provider, s: nat, t: nat, r: PrepareRequest, d: Decision) returns (o: Result<nat>)
    requires s < |tx.slots| && t < |tx.tasks| && r.attempt < |tx.attempts|
    modifies tx`reservations, tx`approvals, tx`operations
    ensures match InsertOperation(old(tx.Data()), p, s, t, r, d, tx.now)
            case Ok(db) => o == Ok(old(|tx.operations|)) && tx.Data() == db
            case Err(e) => o == Err(e)
  {
    ghost var x := tx.Data();
    var reserved := ResourceService.ReserveInTx(tx, tx.tasks[t].spec.envelope, r.exposure, r.control);
    if reserved.Err? { return Err(reserved.error); }
    var sequence := NextSequence(tx.operations, s);
    var op := Operation(t, r.attempt, s, sequence, Prepared, FingerprintOf(p, r.descriptor, r.canonical),
                        tx.slots[s].revision, p.name, reserved.value, None, r.caller, r.risk, d, None, false, None, "");
    if NeedsApproval(d, r.caller) {
      op := op.(approval := Some(|tx.approvals|));
      assert op == NewOperation(x, p, s, t, r, d);
      var request := ApprovalRequest(ExternalOperation(|tx.operations|), DigestOf(op, r.descriptor, r.canonical), d.id,
                                     Required(d, r.caller), AttemptRequester(r.attempt), tx.attempts[r.attempt].expires);
      var filed := ApprovalService.CreateInTx(tx, request);
      if filed.Err? { return Err(filed.error); }
    }
    if d.profile != Some(tx.profile) { return Err(PolicyDenied); }
    o := Ok(|tx.operations|);
    tx.operations := tx.operations + [op];
  }

  method PrepareInSlotInTx(tx: Box, p: Provider, s: nat, t: nat, r: PrepareRequest, d: Decision) returns (o: Result<nat>)
    requires s < |tx.slots| && t < |tx.tasks| && r.attempt < |tx.attempts|
    modifies tx`reservations, tx`approvals, tx`operations
    ensures match PrepareInSlot(old(tx.Data()), p, s, t, r, d, tx.now)
            case Ok(db) => o.Ok? && tx.Data() == db && Latest(db.ops, s) == Some(o.value)
            case Err(e) => o == Err(e)
  {
    ghost var x := tx.Data();
    if PrepareInSlot(x, p, s, t, r, d, tx.now).Ok? { PrepareInSlotShape(x, p, s, t, r, d, tx.now); }
    var latest := Latest(tx.operations, s);
    if latest.Some? {
      match tx.operations[latest.value].state
      case Dispatched => return Ok(latest.value);
      case OutcomeUncertain => return Ok(latest.value);
      case ConfirmedEffect => return Ok(latest.value);
      case Prepared =>
        if StillMatches(tx.Data(), latest.value, r, d) { return Ok(latest.value); }
        var cancelled := CancelInTx(tx, latest.value);
        if cancelled.Err? { return Err(cancelled.error); }
      case _ =>
    }
    o := InsertInTx(tx, p, s, t, r, d);
  }

  method PrepareInTx(tx: Box, reg: Registry, r: PrepareRequest, d: Decision) returns (o: Result<nat>)
    requires r.provider in reg
    modifies tx`reservations, tx`approvals, tx`slots, tx`operations
    ensures
      var x, p := old(tx.Data()), reg[r.provider];
      match Guard(x.exec, r.attempt, tx.now)
      case Err(e) => o == Err(e)
      case Ok(t) =>
        if !Authorised(x.exec.tasks[t].spec, p) then o == Err(PolicyDenied)
        else match ResolveSlot(x.slots, t, r, p)
             case Err(e) => o == Err(e)
             case Ok(slots) =>
               match PrepareInSlot(x.(slots := slots), p, SlotId(x.slots, t, r.key), t, r, d, tx.now)
               case Ok(db) => o.Ok? && tx.Data() == db && Latest(db.ops, SlotId(x.slots, t, r.key)) == Some(o.value)
               case Err(e) => o == Err(e)
  {
    var p := reg[r.provider];
    var t :- Guard(tx.Work(), r.attempt, tx.now);
    if !Authorised(tx.tasks[t].spec, p) { return Err(PolicyDenied); }
    var s := ResolveSlotInTx(tx, t, r, p);
    if s.Err? { return Err(s.error); }
    o := PrepareInSlotInTx(tx, p, s.value, t, r, d);
  }

  /** Prepare: the whole call commits, or nothing of it remains. */
  method Prepare(box: Box, reg: Registry, r: PrepareRequest, d: Decision, began: int) returns (o: Result<nat>)
    modifies box
    ensures box.State() == old(box.State()).(db := box.Data())
    ensures match PrepareTx(reg, old(box.Data()), r, d, began, old(box.now))
            case Ok(db) => o.Ok? && box.Data() == db && r.attempt < old(|box.attempts|)
                           && Latest(box.operations, SlotId(old(box.slots), old(box.attempts)[r.attempt].task, r.key)) == Some(o.value)
            case Err(e) => o == Err(e) && box.Data() == old(box.Data())
  {
    if !PrepareAdmitted(reg, r, d, began) { return Err(PolicyDenied); }
    var saved := box.Data();
    o := PrepareInTx(box, reg, r, d);
    if o.Err? { box.Rollback(saved); }
  }

  // ----- dispatch commit and cancellation -----

  method ConsumeApprovalInTx(tx: Box, o: nat, d: Decision) returns (r: Result<()>)
    requires o < |tx.operations| && tx.operations[o].slot < |tx.slots|
    modifies tx`approvals
    ensures match ConsumeFor(old(tx.Data()), o, d, tx.now)
            case Ok(rows) => r == Ok(()) && tx.approvals == rows
            case Err(e) => r == Err(e) && tx.approvals == old(tx.approvals)
  {
    var op := tx.operations[o];
    var slot := tx.slots[op.slot];
    var required := Required(d, op.caller);
    if !NeedsApproval(d, op.caller) { return if op.approval.Some? then Err(PolicyDenied) else Ok(()); }
    if op.approval.None? || required == {} || op.approval.value >= |tx.approvals| { return Err(PolicyDenied); }
    var record := tx.approvals[op.approval.value];
    var digest := DigestOf(op, slot.descriptor, slot.canonical);
    if record.subject != ExternalOperation(o) || record.digest != digest || record.required != required
       || record.state != Approved {
      return Err(PolicyDenied);
    }
    r := ApprovalService.ConsumeInTx(tx, op.approval.value, digest);
    if r.Err? { return Err(PolicyDenied); }
  }

  method CommitInTx(tx: Box, reg: Registry, o: nat, a: nat, d: Decision, began: int) returns (r: Result<()>)
    modifies tx`approvals, tx`operations
    ensures match CommitTx(reg, old(tx.Data()), o, a, d, began, tx.now)
            case Ok(db) => r == Ok(()) && tx.Data() == db
            case Err(e) => r == Err(e)
  {
    if o >= |tx.operations| { return Err(NotFound); }
    var op := tx.operations[o];
    if op.provider !in reg || op.slot >= |tx.slots| || op.reservation >= |tx.reservations| { return Err(NotFound); }
    var t :- Guard(tx.Work(), a, tx.now);
    if t != op.task { return Err(StaleAttempt); }
    if !Authorised(tx.tasks[t].spec, reg[op.provider]) || !Provenance(d, began) || !Permits(d) { return Err(PolicyDenied); }
    if op.state != Prepared || op.attempt != a { return Err(StaleAttempt); }
    if tx.reservations[op.reservation].state != Held { return Err(PolicyDenied); }
    var slot := tx.slots[op.slot];
    if slot.fingerprint != op.fingerprint || slot.revision != op.revision { return Err(IntentConflict); }
    var consumed := ConsumeApprovalInTx(tx, o, d);
    if consumed.Err? { return Err(consumed.error); }
    if op.dispatch.Some? { return Err(StaleAttempt); }
    if d.profile != Some(tx.profile) { return Err(PolicyDenied); }
    SetOperation(tx, o, op.(state := Dispatched, dispatch := Some(d)));
    return Ok(());
  }

  method Commit(box: Box, reg: Registry, o: nat, a: nat, d: Decision, began: int) returns (r: Result<()>)
    modifies box
    ensures box.State() == old(box.State()).(db := box.Data())
    ensures match CommitTx(reg, old(box.Data()), o, a, d, began, old(box.now))
            case Ok(db) => r == Ok(()) && box.Data() == db
            case Err(e) => r == Err(e) && box.Data() == old(box.Data())
  {
    var saved := box.Data();
    r := CommitInTx(box, reg, o, a, d, began);
    if r.Err? { box.Rollback(saved); }
  }

  method CancelPrepared(box: Box, o: nat, a: nat) returns (r: Result<()>)
    modifies box
    ensures box.State() == old(box.State()).(db := box.Data())
    ensures match CancelTx(old(box.Data()), o, a, old(box.now))
            case Ok(db) => r == Ok(()) && box.Data() == db
            case Err(e) => r == Err(e) && box.Data() == old(box.Data())
  {
    if o >= |box.operations| { return Err(NotFound); }
    var t :- Guard(box.Work(), a, box.now);
    if t != box.operations[o].task { return Err(StaleAttempt); }
    if box.operations[o].state != Prepared { return Ok(()); }
    var saved := box.Data();
    r := CancelInTx(box, o);
    if r.Err? { box.Rollback(saved); }
  }

  // ----- settlement -----

  method SettleOutcome(box: Box, o: nat, outcome: ProviderOutcome) returns (r: Result<Operation>)
    modifies box
    ensures box.State() == old(box.State()).(db := box.Data())
    ensures match SettleTx(old(box.Data()), o, outcome)
            case Ok(db) => box.Data() == db && o < |box.operations| && r == Ok(box.operations[o])
            case Err(e) => r == Err(e) && box.Data() == old(box.Data())
  {
    if !Confirmed(outcome.state) || outcome.cost < 0 { return Err(Malformed); }
    if o >= |box.operations| { return Err(NotFound); }
    var op := box.operations[o];
    if op.state == outcome.state {
      return if op.cost == Some(outcome.cost) && op.reference == Trim(outcome.reference) then Ok(op) else Err(Conflict);
    }
    if op.state != Dispatched && op.state != OutcomeUncertain { return Err(WrongState); }
    var saved := box.Data();
    var settled := ResourceService.SettleInTx(box, op.reservation, outcome.cost);
    if settled.Err? {
      box.Rollback(saved);
      return Err(settled.error);
    }
    SetOperation(box, o, op.(state := outcome.state, cost := Some(outcome.cost), reference := Trim(outcome.reference), reconcile := false));
    return Ok(box.operations[o]);
  }

  method MarkUnknown(box: Box, o: nat) returns (r: Result<Operation>)
    modifies box
    ensures box.State() == old(box.State()).(db := box.Data())
    ensures match MarkUnknownTx(old(box.Data()), o)
            case Ok(db) => box.Data() == db && o < |box.operations| && r == Ok(box.operations[o])
            case Err(e) => r == Err(e) && box.Data() == old(box.Data())
  {
    if o >= |box.operations| { return Err(NotFound); }
    var op := box.operations[o];
    if Confirmed(op.state) { return Ok(op); }
    if op.state != Dispatched && op.state != OutcomeUncertain { return Err(WrongState); }
    var saved := box.Data();
    var marked := ResourceService.MarkUnresolvedInTx(box, op.reservation);
    if marked.Err? {
      box.Rollback(saved);
      return Err(marked.error);
    }
    SetOperation(box, o, op.(state := OutcomeUncertain, reconcile := true));
    return Ok(box.operations[o]);
  }
}
