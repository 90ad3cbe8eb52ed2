/** When a prepare call goes through, and what it puts on the books, read off the rows alone. */
module Preparing {
  import opened Domain
  import opened Strings
  import opened Execution
  import opened Resources
  import opened Approvals
  import opened Operations
  import opened Lockstep
  import opened Transactions
  import opened Terms

  /** The call itself is in order: it is whole, its decision lets it go on, its attempt is live, and its task was granted
      the provider. */
  ghost predicate Asked(reg: Registry, x: Db, r: PrepareRequest, d: Decision, began: int, now: int) {
    && r.provider in reg && r.key != "" && r.descriptor != "" && r.canonical != "" && r.exposure > 0
    && Fresh(d, began) && Permitted(d) && (Asks(d, r.caller) ==> Signers(d, r.caller) != {})
    && Live(x.exec, r.attempt, now) && x.exec.attempts[r.attempt].task < |x.exec.tasks|
    && Covers(x.exec.tasks[x.exec.attempts[r.attempt].task].spec, reg[r.provider])
  }

  lemma AskedMeans(reg: Registry, x: Db, r: PrepareRequest, d: Decision, began: int, now: int)
    requires DbInv(x)
    ensures Asked(reg, x, r, d, began, now) <==>
      PrepareAdmitted(reg, r, d, began) && Guard(x.exec, r.attempt, now).Ok?
      && Authorised(x.exec.tasks[Guard(x.exec, r.attempt, now).value].spec, reg[r.provider])
  {
    LiveMeans(x.exec, r.attempt, now);
    if Guard(x.exec, r.attempt, now).Ok? && r.provider in reg {
      TermsMean(x.exec.tasks[Guard(x.exec, r.attempt, now).value].spec, reg[r.provider], d, began, r.caller, r.descriptor, r.canonical);
    }
  }

  /** The envelope has room for the exposure, under the control the provider states. */
  ghost predicate Room(l: Ledger, e: nat, r: PrepareRequest, freed: int) {
    && e < |l.limits| && r.exposure <= Available(l, e) + freed
    && r.control.control != UnknownControl && Trim(r.control.source) != ""
    && (r.control.requireHardCap ==> r.control.control != EstimatedOnly && r.control.control != PotentiallyUnbounded)
  }

  /** The operation a call puts on the books, with its place in its slot. */
  ghost predicate NewRow(x: Db, op: Operation, p: Provider, s: nat, t: nat, r: PrepareRequest, d: Decision) {
    && op.task == t && op.attempt == r.attempt && op.slot == s && s < |x.slots|
    && (forall q | 0 <= q < |x.ops| && x.ops[q].slot == s :: x.ops[q].sequence < op.sequence)
    && op.state == Prepared && op.dispatch.None? && op.cost.None? && !op.reconcile && op.reference == ""
    && op.provider == p.name && op.fingerprint == PrintOf(p, r.descriptor, r.canonical) && op.revision == x.slots[s].revision
    && op.caller == r.caller && op.risk == r.risk && op.prepare == d
    && op.reservation == |x.ledger.rows| && op.approval == (if Asks(d, r.caller) then Some(|x.approvals|) else None)
  }

  /** Between x and y one operation was added with its reservation and, if somebody has to sign, its request, which ends
      with the attempt's lease. */
  ghost predicate Adds(x: Db, y: Db, p: Provider, s: nat, t: nat, r: PrepareRequest, d: Decision)
    requires t < |x.exec.tasks| && r.attempt < |x.exec.attempts|
  {
    && y.exec == x.exec && y.slots == x.slots && y.profile == x.profile
    && |y.ops| == |x.ops| + 1 && y.ops[..|x.ops|] == x.ops && NewRow(x, y.ops[|x.ops|], p, s, t, r, d)
    && y.ledger == Ledger(x.ledger.limits, x.ledger.rows + [Reservation(x.exec.tasks[t].spec.envelope, Held, r.exposure, None)])
    && y.approvals == x.approvals + if !Asks(d, r.caller) then [] else
         [Approval(ExternalOperation(|x.ops|),
                   OperationDigest(p.name, r.descriptor, s, PrintOf(p, r.descriptor, r.canonical), y.ops[|x.ops|].revision, r.canonical),
                   d.id, Signers(d, r.caller), AttemptRequester(r.attempt), Pending, x.exec.attempts[r.attempt].expires, map[])]
  }

  lemma SequenceGrows(x: Db, s: nat)
    ensures forall q | 0 <= q < |x.ops| && x.ops[q].slot == s :: x.ops[q].sequence < NextSequence(x.ops, s)
  {
  }

  lemma FilesNew(x: Db, p: Provider, s: nat, t: nat, r: PrepareRequest, d: Decision, now: int)
    requires DbInv(x) && s < |x.slots| && Live(x.exec, r.attempt, now)
    requires d.id != "" && Permitted(d) && Signers(d, r.caller) != {} && Asks(d, r.caller)
    ensures
      var op := NewOperation(x, p, s, t, r, d);
      CreateApproval(x.approvals, ApprovalFor(x, op, r, d), now) == Ok(x.approvals +
        [Approval(ExternalOperation(|x.ops|),
                  OperationDigest(p.name, r.descriptor, s, PrintOf(p, r.descriptor, r.canonical), x.slots[s].revision, r.canonical),
                  d.id, Signers(d, r.caller), AttemptRequester(r.attempt), Pending, x.exec.attempts[r.attempt].expires, map[])])
  {
    var request := ApprovalFor(x, NewOperation(x, p, s, t, r, d), r, d);
    CreateWhen(x.approvals, request, now);
    forall i | 0 <= i < |x.approvals| ensures x.approvals[i].subject != request.subject { assert SubjectOk(x, i); }
    assert Required(d, r.caller) == Signers(d, r.caller);
  }

  /** Inserting needs room on the task's envelope, and the profile the decision was made under to be active. */
  lemma InsertWhen(x: Db, p: Provider, s: nat, t: nat, r: PrepareRequest, d: Decision, now: int)
    requires DbInv(x) && s < |x.slots| && t < |x.exec.tasks| && r.exposure > 0 && Live(x.exec, r.attempt, now)
    requires d.id != "" && Permitted(d) && (Asks(d, r.caller) ==> Signers(d, r.caller) != {})
    ensures InsertOperation(x, p, s, t, r, d, now).Ok? <==>
      Room(x.ledger, x.exec.tasks[t].spec.envelope, r, 0) && d.profile == Some(x.profile)
    ensures InsertOperation(x, p, s, t, r, d, now).Ok? ==> Adds(x, InsertOperation(x, p, s, t, r, d, now).value, p, s, t, r, d)
  {
    ReserveWhen(x.ledger, x.exec.tasks[t].spec.envelope, r.exposure, r.control);
    SequenceGrows(x, s);
    if Asks(d, r.caller) { FilesNew(x, p, s, t, r, d, now); }
  }

  // ----- the slot -----

  /** Whatever slot the task's key is bound to carries this intent. */
  ghost predicate SameIntents(x: Db, t: nat, r: PrepareRequest, p: Provider) {
    forall s | 0 <= s < |x.slots| && x.slots[s].task == t && x.slots[s].key == r.key ::
      x.slots[s].provider == p.name && x.slots[s].descriptor == r.descriptor
      && x.slots[s].fingerprint == PrintOf(p, r.descriptor, r.canonical)
  }

  /** The slots after the call: as before if the key is bound, and otherwise with one more for it. */
  ghost function Bound(x: Db, t: nat, r: PrepareRequest, p: Provider): seq<EffectSlot> {
    if exists s :: 0 <= s < |x.slots| && x.slots[s].task == t && x.slots[s].key == r.key then x.slots
    else x.slots + [EffectSlot(t, r.key, p.name, r.descriptor, PrintOf(p, r.descriptor, r.canonical), 1, r.canonical, p.adapter, p.semantic)]
  }

  lemma ResolveWhen(x: Db, t: nat, r: PrepareRequest, p: Provider)
    requires DbInv(x)
    ensures ResolveSlot(x.slots, t, r, p).Ok? <==> SameIntents(x, t, r, p)
    ensures ResolveSlot(x.slots, t, r, p).Ok? ==> ResolveSlot(x.slots, t, r, p).value == Bound(x, t, r, p)
    ensures ResolveSlot(x.slots, t, r, p).Ok? ==>
      var s := SlotId(x.slots, t, r.key);
      s < |Bound(x, t, r, p)| && Bound(x, t, r, p)[s].task == t && Bound(x, t, r, p)[s].key == r.key
  {
    var found := FindSlot(x.slots, t, r.key);
  }

  /** Operation o is out, or had its effect, or is prepared and fits the call in every respect. */
  ghost predicate Fits(x: Db, o: nat, r: PrepareRequest, d: Decision)
    requires o < |x.ops|
  {
    var op := x.ops[o];
    match op.state
    case Prepared =>
      && op.attempt == r.attempt && op.caller == r.caller
      && if !Asks(d, r.caller) then op.approval.None?
         else
           && op.approval.Some? && op.approval.value < |x.approvals|
           && var a := x.approvals[op.approval.value];
           a.required == Signers(d, r.caller) && (a.state == Pending || a.state == Approved)
    case Dispatched => true
    case OutcomeUncertain => true
    case ConfirmedEffect => true
    case ConfirmedNoEffect => false
    case OperationCancelled => false
  }

  lemma FitsMeans(x: Db, s: nat, o: nat, p: Provider, r: PrepareRequest, d: Decision)
    requires DbInv(x) && s < |x.slots| && o < |x.ops| && x.ops[o].slot == s && x.ops[o].state == Prepared
    requires x.slots[s].descriptor == r.descriptor && x.slots[s].fingerprint == PrintOf(p, r.descriptor, r.canonical)
    requires Permitted(d) && (Asks(d, r.caller) ==> Signers(d, r.caller) != {})
    ensures StillMatches(x, o, r, d) <==> Fits(x, o, r, d)
  {
    assert OpOk(x, o) && SlotOk(x, s);
    assert Required(d, r.caller) == Signers(d, r.caller);
  }

  /** What withdrawing the slot's newest operation would give back. */
  ghost function Freed(x: Db, s: nat, e: nat): int
    requires |x.ledger.rows| == |x.ops|
  {
    var latest := Latest(x.ops, s);
    if latest.Some? && x.ops[latest.value].state == Prepared then Part(x.ledger.rows[latest.value], e, Held) else 0
  }

  /** In a slot, the call is answered by the newest operation if that fits, and otherwise needs room for another. */
  lemma InSlotWhen(x: Db, p: Provider, s: nat, t: nat, r: PrepareRequest, d: Decision, now: int)
    requires DbInv(x) && s < |x.slots| && t < |x.exec.tasks| && r.exposure > 0 && Live(x.exec, r.attempt, now)
    requires x.slots[s].descriptor == r.descriptor && x.slots[s].fingerprint == PrintOf(p, r.descriptor, r.canonical)
    requires d.id != "" && Permitted(d) && (Asks(d, r.caller) ==> Signers(d, r.caller) != {})
    ensures
      var latest, e := Latest(x.ops, s), x.exec.tasks[t].spec.envelope;
      PrepareInSlot(x, p, s, t, r, d, now).Ok? <==>
        (latest.Some? && Fits(x, latest.value, r, d)) || (Room(x.ledger, e, r, Freed(x, s, e)) && d.profile == Some(x.profile))
  {
    var latest, e := Latest(x.ops, s), x.exec.tasks[t].spec.envelope;
    InsertWhen(x, p, s, t, r, d, now);
    if latest.Some? && x.ops[latest.value].state == Prepared {
      var o := latest.value;
      FitsMeans(x, s, o, p, r, d);
      WithdrawnRoom(x, o, e, r, now);
      InsertWhen(CancelOperation(x, o).value, p, s, t, r, d, now);
    }
  }

  lemma WithdrawnRoom(x: Db, o: nat, e: nat, r: PrepareRequest, now: int)
    requires DbInv(x) && o < |x.ops| && x.ops[o].state == Prepared
    ensures CancelOperation(x, o).Ok? && DbInv(CancelOperation(x, o).value)
    ensures
      var y := CancelOperation(x, o).value;
      y.exec == x.exec && y.slots == x.slots && y.profile == x.profile
      && (Room(y.ledger, e, r, 0) <==> Room(x.ledger, e, r, Part(x.ledger.rows[o], e, Held)))
  {
    CancelKeepsDb(x, o, now);
    assert OpOk(x, o);
    if e < |x.ledger.limits| { SettlementsReturn(x.ledger, o, 0, e); }
  }

  /** The exact condition for a prepare call: it is in order, its key carries no other intent, and either the newest
      operation under its key answers it, or there is room for one more under the active profile. */
  lemma PrepareWhen(reg: Registry, x: Db, r: PrepareRequest, d: Decision, began: int, now: int)
    requires DbInv(x)
    ensures PrepareTx(reg, x, r, d, began, now).Ok? <==>
      && Asked(reg, x, r, d, began, now)
      && var t, p := x.exec.attempts[r.attempt].task, reg[r.provider];
      var s, e := SlotId(x.slots, t, r.key), x.exec.tasks[t].spec.envelope;
      && SameIntents(x, t, r, p)
      && ((Latest(x.ops, s).Some? && Fits(x, Latest(x.ops, s).value, r, d))
          || (Room(x.ledger, e, r, Freed(x, s, e)) && d.profile == Some(x.profile)))
  {
    AskedMeans(reg, x, r, d, began, now);
    if Asked(reg, x, r, d, began, now) {
      LiveMeans(x.exec, r.attempt, now);
      var t, p := x.exec.attempts[r.attempt].task, reg[r.provider];
      ResolveWhen(x, t, r, p);
      if SameIntents(x, t, r, p) {
        ResolveKeepsDb(x, t, r, p, now);
        var y := x.(slots := Bound(x, t, r, p));
        SameInSlot(x, y, t, r, p);
        InSlotWhen(y, p, SlotId(x.slots, t, r.key), t, r, d, now);
      }
    }
  }

  lemma SameInSlot(x: Db, y: Db, t: nat, r: PrepareRequest, p: Provider)
    requires DbInv(x) && SameIntents(x, t, r, p) && y == x.(slots := Bound(x, t, r, p))
    ensures
      var s := SlotId(x.slots, t, r.key);
      s < |y.slots| && y.slots[s].descriptor == r.descriptor && y.slots[s].fingerprint == PrintOf(p, r.descriptor, r.canonical)
  {
    ResolveWhen(x, t, r, p);
  }

  // ----- what is on the books afterwards -----

  /** What the approval of an operation is given for: its intent, and the slot and fingerprint it stands under. */
  ghost function Material(db: Db, op: Operation): Digest
    requires op.slot < |db.slots|
  {
    OperationDigest(op.provider, db.slots[op.slot].descriptor, op.slot, op.fingerprint, op.revision, db.slots[op.slot].canonical)
  }

  /** Operation o of y was put there by this call on x: it is the task's, under the call's key and intent, held on the
      task's envelope, and whoever has to sign is asked to. */
  ghost predicate PreparedAs(reg: Registry, x: Db, y: Db, o: nat, r: PrepareRequest, d: Decision, began: int, now: int) {
    && Asked(reg, x, r, d, began, now) && d.profile == Some(x.profile)
    && o == |x.ops| && |y.ops| == o + 1
    && var t, p, op := x.exec.attempts[r.attempt].task, reg[r.provider], y.ops[o];
    && op.slot < |y.slots| && y.slots[op.slot].task == t && y.slots[op.slot].key == r.key
    && y.slots[op.slot].fingerprint == PrintOf(p, r.descriptor, r.canonical)
    && op.task == t && op.attempt == r.attempt && op.provider == p.name && op.fingerprint == PrintOf(p, r.descriptor, r.canonical)
    && op.state == Prepared && op.caller == r.caller && op.risk == r.risk && op.prepare == d
    && op.reservation == |x.ledger.rows| && |y.ledger.rows| == op.reservation + 1
    && y.ledger.rows[op.reservation] == Reservation(x.exec.tasks[t].spec.envelope, Held, r.exposure, None)
    && op.approval == (if Asks(d, r.caller) then Some(|x.approvals|) else None)
    && y.approvals == x.approvals + if !Asks(d, r.caller) then [] else
         [Approval(ExternalOperation(o), Material(y, op), d.id, Signers(d, r.caller), AttemptRequester(r.attempt), Pending,
                   x.exec.attempts[r.attempt].expires, map[])]
  }

  lemma AddsPrepared(reg: Registry, x: Db, base: Db, y: Db, s: nat, r: PrepareRequest, d: Decision, began: int, now: int)
    requires Asked(reg, x, r, d, began, now) && d.profile == Some(x.profile)
    requires |base.ops| == |x.ops| && base.exec == x.exec && |base.ledger.rows| == |x.ledger.rows| && base.approvals == x.approvals
    requires Adds(base, y, reg[r.provider], s, x.exec.attempts[r.attempt].task, r, d)
    requires s < |base.slots| && base.slots[s].task == x.exec.attempts[r.attempt].task && base.slots[s].key == r.key
    requires base.slots[s].fingerprint == PrintOf(reg[r.provider], r.descriptor, r.canonical)
    requires base.slots[s].descriptor == r.descriptor && base.slots[s].canonical == r.canonical
    ensures PreparedAs(reg, x, y, |x.ops|, r, d, began, now)
  {
  }

  lemma PrepareAdds(reg: Registry, x: Db, r: PrepareRequest, d: Decision, began: int, now: int)
    requires DbInv(x) && PrepareTx(reg, x, r, d, began, now).Ok?
    requires |PrepareTx(reg, x, r, d, began, now).value.ops| > |x.ops|
    ensures PreparedAs(reg, x, PrepareTx(reg, x, r, d, began, now).value, |x.ops|, r, d, began, now)
  {
    var y := PrepareTx(reg, x, r, d, began, now).value;
    AskedMeans(reg, x, r, d, began, now);
    LiveMeans(x.exec, r.attempt, now);
    var t, p := x.exec.attempts[r.attempt].task, reg[r.provider];
    var s := SlotId(x.slots, t, r.key);
    ResolveWhen(x, t, r, p);
    ResolveKeepsDb(x, t, r, p, now);
    SameInSlot(x, x.(slots := Bound(x, t, r, p)), t, r, p);
    assert SlotOk(x.(slots := Bound(x, t, r, p)), s);
    var base := SlotAdds(x.(slots := Bound(x, t, r, p)), p, s, t, r, d, now);
    AddsPrepared(reg, x, base, y, s, r, d, began, now);
  }

  /** What is added in a slot is added to what was there, or to what is left of it after a withdrawal. */
  lemma SlotAdds(x: Db, p: Provider, s: nat, t: nat, r: PrepareRequest, d: Decision, now: int) returns (base: Db)
    requires DbInv(x) && s < |x.slots| && t < |x.exec.tasks| && r.exposure > 0 && Live(x.exec, r.attempt, now)
    requires d.id != "" && Permitted(d) && (Asks(d, r.caller) ==> Signers(d, r.caller) != {})
    requires PrepareInSlot(x, p, s, t, r, d, now).Ok? && |PrepareInSlot(x, p, s, t, r, d, now).value.ops| > |x.ops|
    ensures |base.ops| == |x.ops| && base.exec == x.exec && |base.ledger.rows| == |x.ledger.rows|
    ensures base.approvals == x.approvals && base.slots == x.slots && d.profile == Some(x.profile)
    ensures Adds(base, PrepareInSlot(x, p, s, t, r, d, now).value, p, s, t, r, d)
  {
    var latest := Latest(x.ops, s);
    if latest.Some? && x.ops[latest.value].state == Prepared {
      CancelKeepsDb(x, latest.value, now);
      base := CancelOperation(x, latest.value).value;
      WithdrawalKeepsRows(x, latest.value);
    } else {
      base := x;
    }
    InsertWhen(base, p, s, t, r, d, now);
  }

  lemma WithdrawalKeepsRows(x: Db, o: nat)
    requires o < |x.ops| && CancelOperation(x, o).Ok?
    ensures
      var y := CancelOperation(x, o).value;
      |y.ops| == |x.ops| && |y.ledger.rows| == |x.ledger.rows| && y.approvals == x.approvals && y.profile == x.profile
  {
  }
}
