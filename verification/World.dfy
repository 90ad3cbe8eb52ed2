/** The Box as one transition system: a database shared by any number of processes, a clock that never runs
    backwards, the dispatch calls that are under way, and a log of the calls that reached a provider. Each event is
    one transaction, one provider call or one crash, so a run is any interleaving of any processes. */
module World {
  import opened Domain
  import opened Execution
  import opened Leases
  import opened Staleness
  import opened Retries
  import opened Delegation
  import opened Resources
  import opened Approvals
  import opened Operations
  import opened Lockstep
  import opened Transactions

  /** What a provider call gives back: an outcome, or no acknowledgement. */
  datatype Answer = Unacknowledged | Acknowledged(outcome: ProviderOutcome)

  /** A dispatch call that has committed its operation is about to call the provider, holds an answer, or is over. */
  datatype Phase = Committed | Answered(answer: Answer) | Finished

  datatype Call = Call(operation: nat, phase: Phase, sent: bool)

  datatype World = World(db: Db, now: int, calls: seq<Call>, sends: seq<nat>)

  datatype Event =
    | Tick(delay: nat)
    | Executes(exec: ExecEvent)
    | AddsEnvelope(limit: nat)
    | ActivatesProfile(profile: nat)
    | Files(filing: ApprovalRequest)
    | Signs(approval: nat, approver: string, digest: Digest, verdict: Verdict)
    | Uses(approval: nat, digest: Digest)
    | Prepares(registry: Registry, request: PrepareRequest, decision: Decision, began: int)
    | Cancels(operation: nat, attempt: nat)
    | Commits(registry: Registry, operation: nat, attempt: nat, decision: Decision, began: int)
    | Sends(call: nat, answer: Answer)
    | Records(call: nat)
    | Crashes(call: nat)
    | Concludes(operation: nat, answer: Answer)

  /** How an answer is written down: a confirmed outcome is settled, anything else leaves the outcome unknown. */
  function RecordTx(db: Db, o: nat, answer: Answer): Result<Db> {
    if answer.Acknowledged? && Confirmed(answer.outcome.state) then SettleTx(db, o, answer.outcome)
    else MarkUnknownTx(db, o)
  }

  function ExecTx(db: Db, e: ExecEvent, now: int): Result<Db> {
    match Apply(db.exec, e, now)
    case Err(error) => Err(error)
    case Ok(exec) => Ok(db.(exec := exec))
  }

  /** Approval work on behalf of anything but an external operation, which has its own gate. */
  function ApprovalTx(db: Db, e: Event, now: int): Result<Db>
    requires e.Files? || e.Signs? || e.Uses?
  {
    var rows :=
      match e
      case Files(r) => if r.subject.OtherSubject? then CreateApproval(db.approvals, r, now) else Err(Conflict)
      case Signs(id, approver, digest, verdict) => Decide(db.approvals, id, approver, digest, verdict, now)
      case Uses(id, digest) =>
        if id < |db.approvals| && db.approvals[id].subject.OtherSubject? then Consume(db.approvals, id, digest, now)
        else Err(Conflict);
    match rows
    case Err(error) => Err(error)
    case Ok(approvals) => Ok(db.(approvals := approvals))
  }

  /** The transaction an event stands for; the events without one have none to fail. */
  function Tx(w: World, e: Event): Result<Db> {
    match e
    case Tick(_) => Ok(w.db)
    case Sends(_, _) => Ok(w.db)
    case Crashes(_) => Ok(w.db)
    case Executes(exec) => ExecTx(w.db, exec, w.now)
    case AddsEnvelope(limit) => Ok(w.db.(ledger := w.db.ledger.(limits := w.db.ledger.limits + [limit])))
    case ActivatesProfile(profile) => Ok(w.db.(profile := profile))
    case Files(_) => ApprovalTx(w.db, e, w.now)
    case Signs(_, _, _, _) => ApprovalTx(w.db, e, w.now)
    case Uses(_, _) => ApprovalTx(w.db, e, w.now)
    case Prepares(reg, r, d, began) => PrepareTx(reg, w.db, r, d, began, w.now)
    case Cancels(o, a) => CancelTx(w.db, o, a, w.now)
    case Commits(reg, o, a, d, began) => CommitTx(reg, w.db, o, a, d, began, w.now)
    case Records(i) =>
      if i < |w.calls| && w.calls[i].phase.Answered? then RecordTx(w.db, w.calls[i].operation, w.calls[i].phase.answer)
      else Ok(w.db)
    case Concludes(o, answer) => RecordTx(w.db, o, answer)
  }

  function Calls(w: World, e: Event): seq<Call> {
    match e
    case Commits(_, o, _, _, _) => if Tx(w, e).Ok? then w.calls + [Call(o, Committed, false)] else w.calls
    case Sends(i, answer) => if Ready(w, i) then w.calls[i := Call(w.calls[i].operation, Answered(answer), true)] else w.calls
    case Records(i) => if i < |w.calls| && w.calls[i].phase.Answered? then w.calls[i := w.calls[i].(phase := Finished)] else w.calls
    case Crashes(i) => if i < |w.calls| then w.calls[i := w.calls[i].(phase := Finished)] else w.calls
    case _ => w.calls
  }

  predicate Ready(w: World, i: nat) {
    i < |w.calls| && w.calls[i].phase == Committed
  }

  /** One event. A failed transaction is rolled back and leaves the database as it was. */
  function Step(w: World, e: Event): World {
    World(if Tx(w, e).Ok? then Tx(w, e).value else w.db,
          if e.Tick? then w.now + e.delay else w.now,
          Calls(w, e),
          if e.Sends? && Ready(w, e.call) then w.sends + [w.calls[e.call].operation] else w.sends)
  }

  function Run(w: World, events: seq<Event>): World {
    if events == [] then w else Step(Run(w, events[..|events| - 1]), events[|events| - 1])
  }

  const FRESH: Db := Db(EMPTY, Ledger([], []), [], [], [], 0)

  function Boot(now: int): World {
    World(FRESH, now, [], [])
  }

  // ----- the invariant -----

  ghost predicate DataInv(db: Db) {
    DbInv(db) && RetryInv(db.exec) && SpecInv(db.exec.tasks)
  }

  ghost predicate CallOk(w: World, i: nat)
    requires i < |w.calls|
  {
    var call := w.calls[i];
    && call.operation < |w.db.ops| && w.db.ops[call.operation].dispatch.Some?
    && (call.phase == Committed ==> !call.sent)
    && (call.sent <==> call.operation in w.sends)
  }

  ghost predicate MadeBy(w: World, o: nat, i: nat) {
    i < |w.calls| && w.calls[i].operation == o
  }

  ghost predicate HasCall(w: World, o: nat) {
    exists i :: MadeBy(w, o, i)
  }

  ghost predicate CallsInv(w: World) {
    && (forall i | 0 <= i < |w.calls| :: CallOk(w, i))
    && (forall i, j | 0 <= i < j < |w.calls| :: w.calls[i].operation != w.calls[j].operation)
    && (forall o: nat | o < |w.db.ops| && w.db.ops[o].dispatch.Some? :: HasCall(w, o))
    && (forall k | 0 <= k < |w.sends| :: w.sends[k] < |w.db.ops| && w.db.ops[w.sends[k]].dispatch.Some?)
    && (forall j, k | 0 <= j < k < |w.sends| :: w.sends[j] != w.sends[k])
  }

  ghost predicate Inv(w: World) {
    DataInv(w.db) && CallsInv(w)
  }

  /** What can happen to a world, and what cannot. */
  ghost predicate WorldAdvances(w: World, v: World) {
    && DbAdvances(w.db, w.now, v.db, v.now)
    && w.sends <= v.sends
    && w.db.ledger.limits <= v.db.ledger.limits
    && |w.calls| <= |v.calls|
    && (forall i | 0 <= i < |w.calls| :: v.calls[i].operation == w.calls[i].operation)
  }

  // ----- each transaction keeps the data invariant -----

  lemma ExecKeepsData(x: Db, e: ExecEvent, now: int)
    requires DataInv(x) && ExecTx(x, e, now).Ok?
    ensures DataInv(ExecTx(x, e, now).value)
    ensures DbAdvances(x, now, ExecTx(x, e, now).value, now)
  {
    var y := ExecTx(x, e, now).value;
    ApplyKeepsLeases(x.exec, e, now);
    ApplyAdvances(x.exec, e, now);
    ApplyKeepsRetries(x.exec, e, now);
    ApplyKeepsSpecs(x.exec, e, now);
    ExecMoves(x, y, now);
  }

  lemma ExecMoves(x: Db, y: Db, now: int)
    requires DbInv(x) && LeaseInv(y.exec) && Advances(x.exec, now, y.exec, now) && y == x.(exec := y.exec)
    ensures DbInv(y) && DbAdvances(x, now, y, now)
  {
    forall o: nat | o < |y.ops| ensures OpOk(y, o) && OpAdvances(x.ops[o], y.ops[o]) {
      assert OpOk(x, o);
      assert AttemptAdvances(x.exec.attempts[x.ops[o].attempt], y.exec.attempts[x.ops[o].attempt]);
    }
    forall s: nat | s < |y.slots| ensures SlotOk(y, s) { assert SlotOk(x, s); }
    forall i, j | 0 <= i < j < |y.ops| ensures Succession(y.ops[i], y.ops[j]) { assert Succession(x.ops[i], x.ops[j]); }
    forall a: nat | a < |y.approvals| ensures SubjectOk(y, a) && ApprovalAdvances(x.approvals[a], y.approvals[a]) {
      assert SubjectOk(x, a);
    }
  }

  /** Approval rows may change as long as the requests of operations are neither added nor consumed. */
  lemma ApprovalsMove(x: Db, y: Db, now: int)
    requires DbInv(x) && y == x.(approvals := y.approvals)
    requires ApprovalInv(y.approvals) && ApprovalsAdvance(x.approvals, y.approvals)
    requires forall a: nat | a < |x.approvals| && x.approvals[a].subject.ExternalOperation? ::
      y.approvals[a].state == Consumed <==> x.approvals[a].state == Consumed
    requires forall a: nat | |x.approvals| <= a < |y.approvals| :: y.approvals[a].subject.OtherSubject?
    ensures DbInv(y) && DbAdvances(x, now, y, now)
  {
    WaitingAdvances(x.exec, now, now);
    forall o: nat | o < |y.ops| ensures OpOk(y, o) && OpAdvances(x.ops[o], y.ops[o]) {
      assert OpOk(x, o);
      if x.ops[o].approval.Some? {
        assert ApprovalAdvances(x.approvals[x.ops[o].approval.value], y.approvals[x.ops[o].approval.value]);
      }
    }
    forall s: nat | s < |y.slots| ensures SlotOk(y, s) { assert SlotOk(x, s); }
    forall i, j | 0 <= i < j < |y.ops| ensures Succession(y.ops[i], y.ops[j]) { assert Succession(x.ops[i], x.ops[j]); }
    forall a: nat | a < |y.approvals| ensures SubjectOk(y, a) {
      if a < |x.approvals| {
        assert SubjectOk(x, a);
        assert ApprovalAdvances(x.approvals[a], y.approvals[a]);
      }
    }
  }

  lemma ApprovalKeepsData(x: Db, e: Event, now: int)
    requires DataInv(x) && (e.Files? || e.Signs? || e.Uses?) && ApprovalTx(x, e, now).Ok?
    ensures DataInv(ApprovalTx(x, e, now).value)
    ensures DbAdvances(x, now, ApprovalTx(x, e, now).value, now)
  {
    var y := ApprovalTx(x, e, now).value;
    match e {
      case Files(r) =>
        CreateKeepsApprovals(x.approvals, r, now);
        forall a: nat | a < |x.approvals| ensures ApprovalAdvances(x.approvals[a], y.approvals[a]) {
          assert y.approvals[a] == x.approvals[a];
        }
      case Signs(id, approver, digest, verdict) => DecideKeepsApprovals(x.approvals, id, approver, digest, verdict, now);
      case Uses(id, digest) => ConsumeKeepsApprovals(x.approvals, id, digest, now);
    }
    ApprovalsMove(x, y, now);
  }

  lemma OtherKeepsData(x: Db, y: Db, now: int)
    requires DataInv(x) && y == x.(ledger := x.ledger.(limits := y.ledger.limits), profile := y.profile)
    requires BudgetInv(y.ledger)
    ensures DataInv(y) && DbAdvances(x, now, y, now)
  {
    GrowthAdvances(x, now, y, now);
    forall o: nat | o < |y.ops| ensures OpOk(y, o) { assert OpOk(x, o); }
    forall s: nat | s < |y.slots| ensures SlotOk(y, s) { assert SlotOk(x, s); }
    forall i, j | 0 <= i < j < |y.ops| ensures Succession(y.ops[i], y.ops[j]) { assert Succession(x.ops[i], x.ops[j]); }
    forall a: nat | a < |y.approvals| ensures SubjectOk(y, a) { assert SubjectOk(x, a); }
  }

  lemma SettlementKeepsData(x: Db, o: nat, answer: Answer, now: int)
    requires DataInv(x) && RecordTx(x, o, answer).Ok?
    ensures DataInv(RecordTx(x, o, answer).value) && DbAdvances(x, now, RecordTx(x, o, answer).value, now)
    ensures RecordTx(x, o, answer).value.ledger.limits == x.ledger.limits
  {
    if answer.Acknowledged? && Confirmed(answer.outcome.state) { SettleKeepsDb(x, o, answer.outcome, now); }
    else { MarkUnknownKeepsDb(x, o, now); }
  }

  lemma RecordKeepsData(w: World, e: Event)
    requires DataInv(w.db) && e.Records? && Tx(w, e).Ok?
    ensures DataInv(Tx(w, e).value) && DbAdvances(w.db, w.now, Tx(w, e).value, w.now)
    ensures Tx(w, e).value.ledger.limits == w.db.ledger.limits
  {
    var i := e.call;
    if i < |w.calls| && w.calls[i].phase.Answered? {
      SettlementKeepsData(w.db, w.calls[i].operation, w.calls[i].phase.answer, w.now);
    } else {
      StillAdvances(w.db, w.now, w.now);
    }
  }

  lemma CancelKeepsData(x: Db, o: nat, a: nat, now: int)
    requires DataInv(x) && CancelTx(x, o, a, now).Ok?
    ensures DataInv(CancelTx(x, o, a, now).value) && DbAdvances(x, now, CancelTx(x, o, a, now).value, now)
    ensures CancelTx(x, o, a, now).value.ledger.limits == x.ledger.limits
  {
    if x.ops[o].state == Prepared { CancelKeepsDb(x, o, now); } else { StillAdvances(x, now, now); }
  }

  lemma TxKeepsData(w: World, e: Event)
    requires DataInv(w.db) && Tx(w, e).Ok?
    ensures DataInv(Tx(w, e).value) && DbAdvances(w.db, w.now, Tx(w, e).value, w.now)
    ensures w.db.ledger.limits <= Tx(w, e).value.ledger.limits
  {
    match e {
      case Executes(exec) => ExecKeepsData(w.db, exec, w.now);
      case AddsEnvelope(limit) => EnvelopeKeepsBudget(w.db.ledger, limit); OtherKeepsData(w.db, Tx(w, e).value, w.now);
      case ActivatesProfile(_) => OtherKeepsData(w.db, Tx(w, e).value, w.now);
      case Files(_) => ApprovalKeepsData(w.db, e, w.now);
      case Signs(_, _, _, _) => ApprovalKeepsData(w.db, e, w.now);
      case Uses(_, _) => ApprovalKeepsData(w.db, e, w.now);
      case Tick(_) => StillAdvances(w.db, w.now, w.now);
      case Sends(_, _) => StillAdvances(w.db, w.now, w.now);
      case Crashes(_) => StillAdvances(w.db, w.now, w.now);
      case Prepares(reg, r, d, began) => PrepareKeepsDb(reg, w.db, r, d, began, w.now);
      case Commits(reg, o, a, d, began) => CommitKeepsDb(reg, w.db, o, a, d, began, w.now);
      case Cancels(o, a) => CancelKeepsData(w.db, o, a, w.now);
      case Records(_) => RecordKeepsData(w, e);
      case Concludes(o, answer) => SettlementKeepsData(w.db, o, answer, w.now);
    }
  }
}
