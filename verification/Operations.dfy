/** The protected external-operation boundary: each database transaction of the operations service, as a function
    from the whole database to a new database, or to an error that leaves it as it was. */
module Operations {
  import opened Domain
  import opened Strings
  import opened Execution
  import opened Resources
  import opened Approvals

  datatype Provider = Provider(name: string, capability: string, enforcement: Enforcement, adapter: string, semantic: bool)

  type Registry = map<string, Provider>

  datatype PolicyOutcome = Allow | AllowWithLimit | RequireApproval | Deny | UnknownOutcome

  /** A policy decision. Its profile is the policy set and hashes it was made under, absent when incomplete. */
  datatype Decision = Decision(id: string, outcome: PolicyOutcome, approvers: set<string>, profile: Option<nat>, at: int)

  datatype EffectSlot = EffectSlot(
    task: nat, key: string, provider: string, descriptor: string,
    fingerprint: Fingerprint, revision: nat, canonical: string, adapter: string, semantic: bool)

  datatype Operation = Operation(
    task: nat, attempt: nat, slot: nat, sequence: nat, state: OperationState,
    fingerprint: Fingerprint, revision: nat, provider: string, reservation: nat, approval: Option<nat>,
    caller: set<string>, risk: string, prepare: Decision, dispatch: Option<Decision>,
    reconcile: bool, cost: Option<int>, reference: string)

  datatype Db = Db(exec: Exec, ledger: Ledger, approvals: seq<Approval>, slots: seq<EffectSlot>, ops: seq<Operation>, profile: nat)

  /** A prepare call after the provider has canonicalised and priced the intent. */
  datatype PrepareRequest = PrepareRequest(
    attempt: nat, provider: string, key: string, descriptor: string, canonical: string,
    exposure: int, control: Enforceability, risk: string, caller: set<string>)

  datatype ProviderOutcome = ProviderOutcome(state: OperationState, reference: string, cost: int)

  // ----- policy gate -----

  predicate Provenance(d: Decision, began: int) {
    d.id != "" && d.profile.Some? && d.at == began
  }

  predicate Permits(d: Decision) {
    d.outcome == Allow || d.outcome == RequireApproval
  }

  function Required(d: Decision, caller: set<string>): set<string> {
    if d.outcome == RequireApproval then caller + d.approvers else caller
  }

  predicate NeedsApproval(d: Decision, caller: set<string>) {
    d.outcome == RequireApproval || caller != {}
  }

  predicate Authorised(spec: TaskSpec, p: Provider) {
    p.capability in spec.authority && spec.enforcement.Rank() <= p.enforcement.Rank()
  }

  // ----- effect slots -----

  function FingerprintOf(p: Provider, descriptor: string, canonical: string): Fingerprint {
    Fingerprint(p.name, descriptor, canonical, if p.semantic then Some(p.adapter) else None)
  }

  function FindSlot(slots: seq<EffectSlot>, t: nat, key: string): (r: Option<nat>)
    ensures r.Some? ==> r.value < |slots| && slots[r.value].task == t && slots[r.value].key == key
    ensures r.None? ==> forall s | 0 <= s < |slots| :: slots[s].task != t || slots[s].key != key
  {
    if slots == [] then None
    else if slots[|slots| - 1].task == t && slots[|slots| - 1].key == key then Some(|slots| - 1)
    else FindSlot(slots[..|slots| - 1], t, key)
  }

  function SlotId(slots: seq<EffectSlot>, t: nat, key: string): (s: nat)
    ensures s <= |slots|
    ensures s < |slots| ==> slots[s].task == t && slots[s].key == key
  {
    var found := FindSlot(slots, t, key);
    if found.Some? then found.value else |slots|
  }

  /** The durable identity of one semantic effect: found under its key with the same intent, or made. */
  function ResolveSlot(slots: seq<EffectSlot>, t: nat, r: PrepareRequest, p: Provider): Result<seq<EffectSlot>> {
    var s := SlotId(slots, t, r.key);
    var fingerprint := FingerprintOf(p, r.descriptor, r.canonical);
    if s < |slots| then
      if slots[s].provider == p.name && slots[s].descriptor == r.descriptor && slots[s].fingerprint == fingerprint
      then Ok(slots) else Err(IntentConflict)
    else
      Ok(slots + [EffectSlot(t, r.key, p.name, r.descriptor, fingerprint, 1, r.canonical, p.adapter, p.semantic)])
  }

  /** The operation of a slot with the highest sequence number. */
  function Latest(ops: seq<Operation>, s: nat): (r: Option<nat>)
    ensures r.Some? ==> r.value < |ops| && ops[r.value].slot == s
    ensures r.Some? ==> forall o | 0 <= o < |ops| && ops[o].slot == s :: ops[o].sequence <= ops[r.value].sequence
    ensures r.None? ==> forall o | 0 <= o < |ops| :: ops[o].slot != s
  {
    if ops == [] then None
    else
      var n := |ops| - 1;
      var before := Latest(ops[..n], s);
      if ops[n].slot == s && (before.None? || ops[before.value].sequence < ops[n].sequence) then Some(n) else before
  }

  function NextSequence(ops: seq<Operation>, s: nat): nat {
    var latest := Latest(ops, s);
    if latest.Some? then ops[latest.value].sequence + 1 else 1
  }

  function DigestOf(op: Operation, descriptor: string, canonical: string): Digest {
    OperationDigest(op.provider, descriptor, op.slot, op.fingerprint, op.revision, canonical)
  }

  // ----- prepare -----

  predicate WellFormed(reg: Registry, r: PrepareRequest) {
    r.provider in reg && r.key != "" && r.descriptor != "" && r.canonical != "" && r.exposure > 0
  }

  function WithOp(db: Db, o: nat, op: Operation): Db
    requires o < |db.ops|
  {
    db.(ops := db.ops[o := op])
  }

  /** Gives back the reservation of a prepared operation and cancels it. */
  function CancelOperation(db: Db, o: nat): Result<Db>
    requires o < |db.ops|
  {
    match Release(db.ledger, db.ops[o].reservation)
    case Err(e) => Err(e)
    case Ok(ledger) => Ok(WithOp(db.(ledger := ledger), o, db.ops[o].(state := OperationCancelled)))
  }

  /** Whether a prepared operation still fits a repeated call, so that the call may be answered with it. */
  predicate StillMatches(db: Db, o: nat, r: PrepareRequest, d: Decision)
    requires o < |db.ops|
  {
    var op := db.ops[o];
    && op.attempt == r.attempt
    && op.caller == r.caller
    && if !NeedsApproval(d, r.caller) then op.approval.None?
       else
         && op.approval.Some? && op.approval.value < |db.approvals| && Required(d, r.caller) != {}
         && var a := db.approvals[op.approval.value];
         && a.subject == ExternalOperation(o) && a.digest == DigestOf(op, r.descriptor, r.canonical)
         && a.required == Required(d, r.caller) && (a.state == Pending || a.state == Approved)
  }

  function NewOperation(db: Db, p: Provider, s: nat, t: nat, r: PrepareRequest, d: Decision): Operation
    requires s < |db.slots|
  {
    Operation(t, r.attempt, s, NextSequence(db.ops, s), Prepared,
              FingerprintOf(p, r.descriptor, r.canonical), db.slots[s].revision, p.name, |db.ledger.rows|,
              if NeedsApproval(d, r.caller) then Some(|db.approvals|) else None,
              r.caller, r.risk, d, None, false, None, "")
  }

  function ApprovalFor(db: Db, op: Operation, r: PrepareRequest, d: Decision): ApprovalRequest
    requires r.attempt < |db.exec.attempts|
  {
    ApprovalRequest(ExternalOperation(|db.ops|), DigestOf(op, r.descriptor, r.canonical), d.id,
                    Required(d, r.caller), AttemptRequester(r.attempt), db.exec.attempts[r.attempt].expires)
  }

  /** Reserves the exposure, files the approval request if one is due, and inserts the operation. */
  function InsertOperation(db: Db, p: Provider, s: nat, t: nat, r: PrepareRequest, d: Decision, now: int): Result<Db>
    requires s < |db.slots| && t < |db.exec.tasks| && r.attempt < |db.exec.attempts|
  {
    var op := NewOperation(db, p, s, t, r, d);
    match Reserve(db.ledger, db.exec.tasks[t].spec.envelope, r.exposure, r.control)
    case Err(e) => Err(e)
    case Ok(ledger) =>
      var approvals := if NeedsApproval(d, r.caller) then CreateApproval(db.approvals, ApprovalFor(db, op, r, d), now)
                       else Ok(db.approvals);
      match approvals
      case Err(e) => Err(e)
      case Ok(rows) =>
        if d.profile != Some(db.profile) then Err(PolicyDenied)
        else Ok(db.(ledger := ledger, approvals := rows, ops := db.ops + [op]))
  }

  function PrepareInSlot(db: Db, p: Provider, s: nat, t: nat, r: PrepareRequest, d: Decision, now: int): Result<Db>
    requires s < |db.slots| && t < |db.exec.tasks| && r.attempt < |db.exec.attempts|
  {
    var latest := Latest(db.ops, s);
    if latest.None? then InsertOperation(db, p, s, t, r, d, now)
    else
      var o := latest.value;
      match db.ops[o].state
      case Dispatched => Ok(db)
      case OutcomeUncertain => Ok(db)
      case ConfirmedEffect => Ok(db)
      case Prepared =>
        if StillMatches(db, o, r, d) then Ok(db)
        else (match CancelOperation(db, o)
              case Err(e) => Err(e)
              case Ok(cancelled) => InsertOperation(cancelled, p, s, t, r, d, now))
      case ConfirmedNoEffect => InsertOperation(db, p, s, t, r, d, now)
      case OperationCancelled => InsertOperation(db, p, s, t, r, d, now)
  }

  predicate PrepareAdmitted(reg: Registry, r: PrepareRequest, d: Decision, began: int) {
    && WellFormed(reg, r)
    && Provenance(d, began) && Permits(d)
    && (NeedsApproval(d, r.caller) ==> Required(d, r.caller) != {})
  }

  /** Prepare, from the fence check to the commit. The call took its clock reading at began and runs at now; it
      answers with the slot's latest operation in the resulting database. */
  function PrepareTx(reg: Registry, db: Db, r: PrepareRequest, d: Decision, began: int, now: int): Result<Db> {
    if !PrepareAdmitted(reg, r, d, began) then Err(PolicyDenied)
    else
      match Guard(db.exec, r.attempt, now)
      case Err(e) => Err(e)
      case Ok(t) =>
        var p := reg[r.provider];
        if !Authorised(db.exec.tasks[t].spec, p) then Err(PolicyDenied)
        else
          match ResolveSlot(db.slots, t, r, p)
          case Err(e) => Err(e)
          case Ok(slots) => PrepareInSlot(db.(slots := slots), p, SlotId(db.slots, t, r.key), t, r, d, now)
  }

  // ----- dispatch commit, cancellation, settlement -----

  /** The approval that the current policy and the caller require is there, exact, and signed by all. */
  function ConsumeFor(db: Db, o: nat, d: Decision, now: int): Result<seq<Approval>>
    requires o < |db.ops| && db.ops[o].slot < |db.slots|
  {
    var op := db.ops[o];
    var slot := db.slots[op.slot];
    var required := Required(d, op.caller);
    if !NeedsApproval(d, op.caller) then
      if op.approval.Some? then Err(PolicyDenied) else Ok(db.approvals)
    else if op.approval.None? || required == {} then Err(PolicyDenied)
    else if op.approval.value >= |db.approvals| then Err(PolicyDenied)
    else
      var a := db.approvals[op.approval.value];
      var digest := DigestOf(op, slot.descriptor, slot.canonical);
      if a.subject != ExternalOperation(o) || a.digest != digest || a.required != required || a.state != Approved
      then Err(PolicyDenied)
      else
        match Consume(db.approvals, op.approval.value, digest, now)
        case Err(_) => Err(PolicyDenied)
        case Ok(rows) => Ok(rows)
  }

  /** The commit that turns a prepared operation into a dispatched one, after which the provider may be called. */
  function CommitTx(reg: Registry, db: Db, o: nat, a: nat, d: Decision, began: int, now: int): Result<Db> {
    if o >= |db.ops| then Err(NotFound)
    else
      var op := db.ops[o];
      if op.provider !in reg || op.slot >= |db.slots| || op.reservation >= |db.ledger.rows| then Err(NotFound)
      else
        match Guard(db.exec, a, now)
        case Err(e) => Err(e)
        case Ok(t) =>
          if t != op.task then Err(StaleAttempt)
          else if !Authorised(db.exec.tasks[t].spec, reg[op.provider]) || !Provenance(d, began) || !Permits(d) then Err(PolicyDenied)
          else if op.state != Prepared || op.attempt != a then Err(StaleAttempt)
          else if db.ledger.rows[op.reservation].state != Held then Err(PolicyDenied)
          else if db.slots[op.slot].fingerprint != op.fingerprint || db.slots[op.slot].revision != op.revision then
            Err(IntentConflict)
          else
            match ConsumeFor(db, o, d, now)
            case Err(e) => Err(e)
            case Ok(approvals) =>
              if op.dispatch.Some? then Err(StaleAttempt)
              else if d.profile != Some(db.profile) then Err(PolicyDenied)
              else Ok(WithOp(db.(approvals := approvals), o, op.(state := Dispatched, dispatch := Some(d))))
  }

  /** Withdraws a prepared operation that the dispatch-time policy refused. */
  function CancelTx(db: Db, o: nat, a: nat, now: int): Result<Db> {
    if o >= |db.ops| then Err(NotFound)
    else
      match Guard(db.exec, a, now)
      case Err(e) => Err(e)
      case Ok(t) =>
        if t != db.ops[o].task then Err(StaleAttempt)
        else if db.ops[o].state != Prepared then Ok(db)
        else CancelOperation(db, o)
  }

  predicate Confirmed(s: OperationState) {
    s == ConfirmedEffect || s == ConfirmedNoEffect
  }

  /** Records a provider's confirmed outcome, or recognises the one already recorded. */
  function SettleTx(db: Db, o: nat, out: ProviderOutcome): Result<Db> {
    if !Confirmed(out.state) || out.cost < 0 then Err(Malformed)
    else if o >= |db.ops| then Err(NotFound)
    else
      var op := db.ops[o];
      if op.state == out.state then
        if op.cost == Some(out.cost) && op.reference == Trim(out.reference) then Ok(db) else Err(Conflict)
      else if op.state != Dispatched && op.state != OutcomeUncertain then Err(WrongState)
      else
        match Settle(db.ledger, op.reservation, out.cost)
        case Err(e) => Err(e)
        case Ok(ledger) =>
          Ok(WithOp(db.(ledger := ledger), o,
                    op.(state := out.state, cost := Some(out.cost), reference := Trim(out.reference), reconcile := false)))
  }

  /** Classifies a dispatched operation whose outcome is not known; a settled one is left alone. */
  function MarkUnknownTx(db: Db, o: nat): Result<Db> {
    if o >= |db.ops| then Err(NotFound)
    else
      var op := db.ops[o];
      if Confirmed(op.state) then Ok(db)
      else if op.state != Dispatched && op.state != OutcomeUncertain then Err(WrongState)
      else
        match MarkUnresolved(db.ledger, op.reservation)
        case Err(e) => Err(e)
        case Ok(ledger) => Ok(WithOp(db.(ledger := ledger), o, op.(state := OutcomeUncertain, reconcile := true)))
  }
}
