/** Who signed what, which call put an operation on the books, and whose word its outcome is: every signature, every
    operation and every outcome on record, over every run, goes back to one event. */
module Origins {
  import opened Domain
  import opened Strings
  import opened Execution
  import opened Approvals
  import opened Operations
  import opened Lockstep
  import opened Transactions
  import opened World
  import opened Runs
  import opened Effects
  import opened Terms
  import opened Preparing
  import opened Histories

  // ----- what events leave alone -----

  /** Between x and y nobody decided anything: requests were only added, with nobody's verdict on them. */
  ghost predicate SameVerdicts(x: seq<Approval>, y: seq<Approval>) {
    && |x| <= |y| && (forall i | 0 <= i < |x| :: y[i].verdicts == x[i].verdicts)
    && forall i | |x| <= i < |y| :: y[i].verdicts == map[]
  }

  lemma PrepareFiles(reg: Registry, x: Db, r: PrepareRequest, d: Decision, began: int, now: int)
    requires DbInv(x) && PrepareTx(reg, x, r, d, began, now).Ok?
    ensures SameVerdicts(x.approvals, PrepareTx(reg, x, r, d, began, now).value.approvals)
  {
    if |PrepareTx(reg, x, r, d, began, now).value.ops| > |x.ops| {
      PrepareAdds(reg, x, r, d, began, now);
    } else {
      PrepareReuses(reg, x, r, d, began, now);
    }
  }

  /** A call that adds no operation is answered with one there was, and leaves every record as it stood. */
  lemma PrepareReuses(reg: Registry, x: Db, r: PrepareRequest, d: Decision, began: int, now: int)
    requires DbInv(x) && PrepareTx(reg, x, r, d, began, now).Ok?
    requires |PrepareTx(reg, x, r, d, began, now).value.ops| <= |x.ops|
    ensures
      var y := PrepareTx(reg, x, r, d, began, now).value;
      y.ops == x.ops && y.approvals == x.approvals && y.ledger == x.ledger && y.exec == x.exec
  {
    var t := Guard(x.exec, r.attempt, now).value;
    var resolved := x.(slots := ResolveSlot(x.slots, t, r, reg[r.provider]).value);
    PrepareInSlotShape(resolved, reg[r.provider], SlotId(x.slots, t, r.key), t, r, d, now);
  }

  lemma CommitKeepsVerdicts(reg: Registry, x: Db, o: nat, a: nat, d: Decision, began: int, now: int)
    requires CommitTx(reg, x, o, a, d, began, now).Ok?
    ensures SameVerdicts(x.approvals, CommitTx(reg, x, o, a, d, began, now).value.approvals)
  {
  }

  lemma FilingKeepsVerdicts(x: Db, e: Event, now: int)
    requires (e.Files? || e.Uses?) && ApprovalTx(x, e, now).Ok?
    ensures SameVerdicts(x.approvals, ApprovalTx(x, e, now).value.approvals)
  {
    match e
    case Files(r) => CreateWhen(x.approvals, r, now);
    case Uses(i, digest) => ConsumeWhen(x.approvals, i, digest, now);
  }

  // ----- verdicts -----

  ghost predicate HasVerdict(w: World, id: nat, p: string, verdict: Verdict) {
    id < |w.db.approvals| && p in w.db.approvals[id].verdicts && w.db.approvals[id].verdicts[p] == verdict
  }

  /** The event is p's own verdict on the request, given for the very material of the request while it was open to p. */
  ghost predicate GivenBy(w: World, e: Event, id: nat, p: string, verdict: Verdict) {
    && id < |w.db.approvals| && e == Signs(id, p, w.db.approvals[id].digest, verdict)
    && var a := w.db.approvals[id];
    a.state == Pending && w.now < a.expires && p in a.required && p !in a.verdicts
  }

  lemma OthersLeaveVerdicts(w: World, e: Event)
    requires Inv(w) && !e.Signs?
    ensures SameVerdicts(w.db.approvals, Step(w, e).db.approvals)
  {
    if Tx(w, e).Ok? {
      match e
      case Files(_) => FilingKeepsVerdicts(w.db, e, w.now);
      case Uses(_, _) => FilingKeepsVerdicts(w.db, e, w.now);
      case Prepares(reg, r, d, began) => PrepareFiles(reg, w.db, r, d, began, w.now);
      case Commits(reg, o, a, d, began) => CommitKeepsVerdicts(reg, w.db, o, a, d, began, w.now);
      case _ =>
    }
  }

  lemma StepSigns(w: World, e: Event, id: nat, p: string, verdict: Verdict)
    requires Inv(w) && HasVerdict(Step(w, e), id, p, verdict) && !HasVerdict(w, id, p, verdict)
    ensures GivenBy(w, e, id, p, verdict)
  {
    if e.Signs? {
      if Tx(w, e).Ok? { DecideWhen(w.db.approvals, e.approval, e.approver, e.digest, e.verdict, w.now); }
    } else {
      OthersLeaveVerdicts(w, e);
    }
  }

  /** Every verdict on record was given by its own principal, who was required to decide, before the request ran out, and
      for the request's own material. */
  lemma VerdictOrigin(now: int, events: seq<Event>, id: nat, p: string, verdict: Verdict) returns (k: nat)
    requires HasVerdict(Run(Boot(now), events), id, p, verdict)
    ensures k < |events| && GivenBy(Before(now, events, k), events[k], id, p, verdict)
    ensures events[k] == Signs(id, p, Run(Boot(now), events).db.approvals[id].digest, verdict)
  {
    k := FirstTime(now, events, (w: World) => HasVerdict(w, id, p, verdict));
    BeforeInv(now, events, k);
    StepSigns(Before(now, events, k), events[k], id, p, verdict);
    assert ApprovalAdvances(Before(now, events, k).db.approvals[id], Run(Boot(now), events).db.approvals[id]);
  }

  // ----- operations -----

  lemma StepPrepares(w: World, e: Event, o: nat)
    requires Inv(w) && |w.db.ops| <= o < |Step(w, e).db.ops|
    ensures e.Prepares? && PreparedAs(e.registry, w.db, Step(w, e).db, o, e.request, e.decision, e.began, w.now)
  {
    match e
    case Prepares(reg, r, d, began) => if Tx(w, e).Ok? { PrepareAdds(reg, w.db, r, d, began, w.now); }
    case Commits(reg, p, a, d, began) => if Tx(w, e).Ok? { CommitDispatchesOne(reg, w.db, p, a, d, began, w.now); }
    case Records(i) => if Tx(w, e).Ok? && i < |w.calls| && w.calls[i].phase.Answered? {
        RecordUndispatching(w.db, w.calls[i].operation, w.calls[i].phase.answer);
      }
    case Concludes(p, answer) => if Tx(w, e).Ok? { RecordUndispatching(w.db, p, answer); }
    case _ =>
  }

  /** Every operation was put on the books by one prepare call of a live attempt whose task was granted the provider,
      under a decision that let it go on; and what it was then, apart from how it went, it still is. */
  lemma OperationOrigin(now: int, events: seq<Event>, o: nat) returns (k: nat)
    requires o < |Run(Boot(now), events).db.ops|
    ensures k < |events| && events[k].Prepares?
    ensures
      var w, e := Before(now, events, k), events[k];
      PreparedAs(e.registry, w.db, Step(w, e).db, o, e.request, e.decision, e.began, w.now)
      && SameRow(Step(w, e).db.ops[o], Run(Boot(now), events).db.ops[o])
  {
    k := FirstTime(now, events, (w: World) => o < |w.db.ops|);
    BeforeInv(now, events, k);
    StepPrepares(Before(now, events, k), events[k], o);
    AfterAdvances(now, events, k);
    assert OpAdvances(Step(Before(now, events, k), events[k]).db.ops[o], Run(Boot(now), events).db.ops[o]);
  }

  /** The columns of an operation that no later call touches. */
  ghost predicate SameRow(p: Operation, q: Operation) {
    q == p.(state := q.state, dispatch := q.dispatch, reconcile := q.reconcile, cost := q.cost, reference := q.reference)
  }

  // ----- every signature behind a dispatch -----

  lemma SignerOnRecord(reg: Registry, x: Db, o: nat, a: nat, d: Decision, began: int, now: int, p: string)
    requires DbInv(x) && CommitTx(reg, x, o, a, d, began, now).Ok? && o < |x.ops| && p in Signers(d, x.ops[o].caller)
    ensures x.ops[o].approval.Some? && x.ops[o].approval.value < |x.approvals| && x.ops[o].slot < |x.slots|
    ensures
      var request := x.approvals[x.ops[o].approval.value];
      request.digest == Material(x, x.ops[o]) && p in request.verdicts && request.verdicts[p] == Approve
  {
    CommitAuthorised(reg, x, o, a, d, began, now);
    assert OpOk(x, o);
  }

  lemma MaterialStays(x: Db, n: int, y: Db, m: int, o: nat)
    requires DbAdvances(x, n, y, m) && o < |x.ops| && x.ops[o].slot < |x.slots|
    ensures y.ops[o].slot < |y.slots| && Material(y, y.ops[o]) == Material(x, x.ops[o]) && y.ops[o].approval == x.ops[o].approval
  {
    assert OpAdvances(x.ops[o], y.ops[o]);
  }

  /** Whoever had to sign for an operation that was dispatched did so before its commit, for the operation's own intent,
      slot and fingerprint, and for nothing else. */
  lemma SignedForItself(now: int, events: seq<Event>, o: nat, k: nat, p: string) returns (j: nat)
    requires DispatchedAt(Boot(now), events, o, k)
    requires o < |Before(now, events, k).db.ops| && p in Signers(events[k].decision, Before(now, events, k).db.ops[o].caller)
    ensures j < k
    ensures
      var db := Run(Boot(now), events).db;
      && o < |db.ops| && db.ops[o].approval.Some? && db.ops[o].slot < |db.slots|
      && events[j] == Signs(db.ops[o].approval.value, p, Material(db, db.ops[o]), Approve)
      && GivenBy(Before(now, events, j), events[j], db.ops[o].approval.value, p, Approve)
  {
    var w, e, final := Before(now, events, k), events[k], Run(Boot(now), events);
    BeforeInv(now, events, k);
    SignerOnRecord(e.registry, w.db, o, e.attempt, e.decision, e.began, w.now, p);
    MaterialStays(w.db, w.now, final.db, final.now, o);
    j := VerdictOrigin(now, events[..k], w.db.ops[o].approval.value, p, Approve);
    assert events[..k][..j] == events[..j];
  }

  // ----- outcomes -----

  ghost predicate HasOutcome(w: World, o: nat) {
    o < |w.db.ops| && Confirmed(w.db.ops[o].state)
  }

  /** The operation has the outcome as its own: the state, the cost and the trimmed reference the provider stated. */
  ghost predicate Shows(op: Operation, out: ProviderOutcome) {
    op.state == out.state && op.cost == Some(out.cost) && op.reference == Trim(out.reference)
  }

  /** The event writes down the acknowledged outcome of a call or of a lookup, for this operation. */
  ghost predicate WritesDown(w: World, e: Event, o: nat, out: ProviderOutcome) {
    || e == Concludes(o, Acknowledged(out))
    || (e.Records? && e.call < |w.calls| && w.calls[e.call].operation == o && w.calls[e.call].phase == Answered(Acknowledged(out)))
  }

  lemma ClearedSettlesNothing(x: seq<Operation>, y: seq<Operation>, s: nat, o: nat)
    requires |y| == |x| + 1 && y[..|x|] == Cleared(x, s) && y[|x|].state == Prepared && o < |y| && Confirmed(y[o].state)
    ensures o < |x| && Confirmed(x[o].state)
  {
    if o < |x| { assert y[o] == y[..|x|][o]; }
  }

  lemma PrepareSettlesNothing(reg: Registry, x: Db, r: PrepareRequest, d: Decision, began: int, now: int, o: nat)
    requires DbInv(x) && PrepareTx(reg, x, r, d, began, now).Ok?
    requires o < |PrepareTx(reg, x, r, d, began, now).value.ops| && Confirmed(PrepareTx(reg, x, r, d, began, now).value.ops[o].state)
    ensures o < |x.ops| && Confirmed(x.ops[o].state)
  {
    var t := Guard(x.exec, r.attempt, now).value;
    var resolved := x.(slots := ResolveSlot(x.slots, t, r, reg[r.provider]).value);
    var s, y := SlotId(x.slots, t, r.key), PrepareTx(reg, x, r, d, began, now).value;
    PrepareInSlotShape(resolved, reg[r.provider], s, t, r, d, now);
    if !Answerable(resolved, s, r, d) { ClearedSettlesNothing(x.ops, y.ops, s, o); }
  }

  lemma RecordWrites(x: Db, p: nat, answer: Answer, o: nat)
    requires DbInv(x) && RecordTx(x, p, answer).Ok? && o < |x.ops| && !Confirmed(x.ops[o].state)
    requires RecordTx(x, p, answer).value.ops[o].state.ConfirmedEffect? || RecordTx(x, p, answer).value.ops[o].state.ConfirmedNoEffect?
    ensures p == o && answer.Acknowledged? && Shows(RecordTx(x, p, answer).value.ops[o], answer.outcome)
  {
  }

  lemma StepSettles(w: World, e: Event, o: nat) returns (out: ProviderOutcome)
    requires Inv(w) && HasOutcome(Step(w, e), o) && !HasOutcome(w, o)
    ensures WritesDown(w, e, o, out) && Shows(Step(w, e).db.ops[o], out)
  {
    match e {
      case Prepares(reg, r, d, began) => PrepareSettlesNothing(reg, w.db, r, d, began, w.now, o);
      case Records(i) =>
        RecordWrites(w.db, w.calls[i].operation, w.calls[i].phase.answer, o);
        out := w.calls[i].phase.answer.outcome;
      case Concludes(p, answer) =>
        RecordWrites(w.db, p, answer, o);
        out := answer.outcome;
      case _ =>
    }
  }

  ghost predicate HasAnswer(w: World, i: nat, answer: Answer) {
    i < |w.calls| && w.calls[i].phase == Answered(answer)
  }

  /** What a call holds as its answer was given to this very call by the provider. */
  lemma AnswerOrigin(now: int, events: seq<Event>, i: nat, answer: Answer) returns (k: nat)
    requires HasAnswer(Run(Boot(now), events), i, answer)
    ensures k < |events| && events[k] == Sends(i, answer) && Ready(Before(now, events, k), i)
  {
    k := FirstTime(now, events, (w: World) => HasAnswer(w, i, answer));
  }

  /** The outcome an operation is confirmed with is one that its provider acknowledged, to its own call or to a lookup, and
      stands in the records as it was acknowledged. */
  lemma OutcomeOrigin(now: int, events: seq<Event>, o: nat) returns (k: nat, out: ProviderOutcome)
    requires HasOutcome(Run(Boot(now), events), o)
    ensures k < |events| && Shows(Run(Boot(now), events).db.ops[o], out)
    ensures
      || events[k] == Concludes(o, Acknowledged(out))
      || (events[k].Sends? && events[k].answer == Acknowledged(out) && events[k].call < |Before(now, events, k).calls|
          && Before(now, events, k).calls[events[k].call] == Call(o, Committed, false))
  {
    k := FirstTime(now, events, (w: World) => HasOutcome(w, o));
    var e := events[k];
    BeforeInv(now, events, k);
    out := StepSettles(Before(now, events, k), e, o);
    OutcomeStays(now, events, k, o, out);
    if e.Records? {
      k := AnswerToCall(now, events, k, o, out);
    }
  }

  lemma OutcomeStays(now: int, events: seq<Event>, k: nat, o: nat, out: ProviderOutcome)
    requires k < |events|
    requires HasOutcome(Step(Before(now, events, k), events[k]), o) && Shows(Step(Before(now, events, k), events[k]).db.ops[o], out)
    ensures o < |Run(Boot(now), events).db.ops| && Shows(Run(Boot(now), events).db.ops[o], out)
  {
    AfterAdvances(now, events, k);
    assert OpAdvances(Step(Before(now, events, k), events[k]).db.ops[o], Run(Boot(now), events).db.ops[o]);
  }

  lemma AnswerToCall(now: int, events: seq<Event>, k: nat, o: nat, out: ProviderOutcome) returns (j: nat)
    requires k < |events| && events[k].Records? && WritesDown(Before(now, events, k), events[k], o, out)
    ensures j < k && events[j] == Sends(events[k].call, Acknowledged(out)) && events[k].call < |Before(now, events, j).calls|
    ensures Before(now, events, j).calls[events[k].call] == Call(o, Committed, false)
  {
    var i := events[k].call;
    j := AnswerOrigin(now, events[..k], i, Acknowledged(out));
    assert events[..k][..j] == events[..j];
    BeforeInv(now, events, j);
    assert CallOk(Before(now, events, j), i);
    CallStays(now, events[..k], j, i);
  }

  lemma CallStays(now: int, events: seq<Event>, j: nat, i: nat)
    requires j <= |events| && i < |Before(now, events, j).calls|
    ensures i < |Run(Boot(now), events).calls|
    ensures Run(Boot(now), events).calls[i].operation == Before(now, events, j).calls[i].operation
  {
    BeforeInv(now, events, j);
  }
}
