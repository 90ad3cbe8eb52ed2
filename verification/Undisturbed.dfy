/** What a dispatch comes to when nobody else acts during the call, from the rows and the provider's answer alone. */
module Undisturbed {
  import opened Domain
  import opened Strings
  import opened Resources
  import opened Operations
  import opened Lockstep
  import Transactions
  import opened World
  import opened Terms
  import opened Stranded
  import opened Origins
  import opened DispatchService

  // ----- the transactions -----

  /** Between x and y only operation o and its reservation changed: the operation went to this state, with this cost and
      reference, and its exposure with it. */
  ghost predicate Ends(x: Db, y: Db, o: nat, state: OperationState, cost: Option<int>, reference: string) {
    && o < |x.ops| && o < |x.ledger.rows|
    && y == x.(ops := x.ops[o := x.ops[o].(state := state, cost := cost, reference := reference, reconcile := state == OutcomeUncertain)],
               ledger := Ledger(x.ledger.limits, x.ledger.rows[o := Reservation(x.ledger.rows[o].envelope, ExposureOf(state), x.ledger.rows[o].amount, cost)]))
  }

  /** How the exposure of an operation stands: held while it may go out or is out, in doubt with it, and otherwise spent
      or given back. */
  ghost function ExposureOf(state: OperationState): ReservationState {
    if state == OutcomeUncertain then Unresolved
    else if state == OperationCancelled then Released
    else if state == ConfirmedEffect || state == ConfirmedNoEffect then Settled
    else Held
  }

  /** An operation that is out takes any confirmed outcome that cost no less than nothing; one that already has an outcome
      takes only the same again. */
  lemma SettleLeaves(x: Db, o: nat, out: ProviderOutcome)
    requires DbInv(x)
    ensures SettleTx(x, o, out).Ok? <==>
      && o < |x.ops| && (out.state == ConfirmedEffect || out.state == ConfirmedNoEffect) && out.cost >= 0
      && (x.ops[o].state == Dispatched || x.ops[o].state == OutcomeUncertain || Shows(x.ops[o], out))
    ensures SettleTx(x, o, out).Ok? ==> Ends(x, SettleTx(x, o, out).value, o, out.state, Some(out.cost), Trim(out.reference))
  {
    if o < |x.ops| {
      assert OpOk(x, o);
      SettleWhen(x.ledger, o, out.cost);
    }
  }

  /** An operation that is out becomes uncertain, and one that has an outcome keeps it. */
  lemma DoubtLeaves(x: Db, o: nat)
    requires DbInv(x)
    ensures MarkUnknownTx(x, o).Ok? <==> o < |x.ops| && x.ops[o].state != Prepared && x.ops[o].state != OperationCancelled
    ensures MarkUnknownTx(x, o).Ok? ==>
      Ends(x, MarkUnknownTx(x, o).value, o,
           if x.ops[o].state == Dispatched then OutcomeUncertain else x.ops[o].state, x.ops[o].cost, x.ops[o].reference)
  {
    if o < |x.ops| {
      assert OpOk(x, o);
      UnresolveWhen(x.ledger, o);
    }
  }

  /** A live attempt of the task withdraws an operation that has not gone out, and changes no other. */
  lemma CancelLeaves(x: Db, o: nat, a: nat, now: int)
    requires DbInv(x)
    ensures CancelTx(x, o, a, now).Ok? <==> o < |x.ops| && Live(x.exec, a, now) && x.exec.attempts[a].task == x.ops[o].task
    ensures CancelTx(x, o, a, now).Ok? ==>
      Ends(x, CancelTx(x, o, a, now).value, o,
           if x.ops[o].state == Prepared then OperationCancelled else x.ops[o].state, x.ops[o].cost, x.ops[o].reference)
  {
    LiveMeans(x.exec, a, now);
    if o < |x.ops| {
      assert OpOk(x, o);
      ReleaseWhen(x.ledger, o);
    }
  }

  /** The commit marks the operation and uses up its approval; the exposure stays held. */
  lemma CommitLeaves(reg: Registry, x: Db, o: nat, a: nat, d: Decision, began: int, now: int)
    requires DbInv(x) && CommitTx(reg, x, o, a, d, began, now).Ok?
    ensures
      var id := x.ops[o].approval;
      && (id.Some? ==> id.value < |x.approvals|)
      && CommitTx(reg, x, o, a, d, began, now).value ==
           x.(ops := x.ops[o := x.ops[o].(state := Dispatched, dispatch := Some(d))],
              approvals := if id.Some? then x.approvals[id.value := x.approvals[id.value].(state := Consumed)] else x.approvals)
  {
    assert OpOk(x, o);
  }

  // ----- dispatch -----

  /** Nothing stands in the way of the commit: the lease is live, the decision was made under the active profile and asks
      for nobody else, and the approval is there and has not run out. */
  ghost predicate Clear(w: World, o: nat, a: nat, d: Decision)
    requires o < |w.db.ops|
  {
    Live(w.db.exec, a, w.now) && d.profile == Some(w.db.profile) && SameApprovers(w.db, o, d) && Usable(w.db, o, w.now)
  }

  lemma ClearCommits(w: World, reg: Registry, o: nat, a: nat, d: Decision)
    requires Inv(w) && Awaits(w, reg, o, a) && Cleared(w, reg, o, a, d)
    ensures CommitTx(reg, w.db, o, a, d, w.now, w.now).Ok? <==> Clear(w, o, a, d)
  {
    CommitWhen(reg, w.db, o, a, d, w.now, w.now);
  }

  /** What the answer comes to for an operation that has just gone out. */
  ghost predicate CameTo(db: Db, o: nat, answer: Answer, r: Result<Operation>) {
    && o < |db.ops|
    && if Establishes(answer) && answer.outcome.cost >= 0 then r == Ok(db.ops[o]) && Shows(db.ops[o], answer.outcome)
       else if Establishes(answer) then r == Err(Malformed) && db.ops[o].state == Dispatched
       else r == Err(OutcomeUnknown) && db.ops[o].state == OutcomeUncertain
  }

  lemma AnswerComesTo(x: Db, o: nat, answer: Answer)
    requires DbInv(x) && o < |x.ops| && x.ops[o].state == Dispatched
    ensures CameTo(if RecordTx(x, o, answer).Ok? then RecordTx(x, o, answer).value else x, o, answer, Report(x, o, answer))
  {
    DoubtLeaves(x, o);
    if answer.Acknowledged? { SettleLeaves(x, o, answer.outcome); }
  }

  lemma CommitOpens(w: World, reg: Registry, o: nat, a: nat, d: Decision)
    requires CommitTx(reg, w.db, o, a, d, w.now, w.now).Ok?
    ensures
      Step(w, Commits(reg, o, a, d, w.now)) ==
        World(CommitTx(reg, w.db, o, a, d, w.now, w.now).value, w.now, w.calls + [Call(o, Committed, false)], w.sends)
  {
  }

  lemma SendAnswers(u: World, i: nat, answer: Answer)
    requires i < |u.calls| && u.calls[i].phase == Committed
    ensures
      Step(u, Sends(i, answer)) ==
        World(u.db, u.now, u.calls[i := Call(u.calls[i].operation, Answered(answer), true)], u.sends + [u.calls[i].operation])
  {
  }

  lemma RecordCloses(u: World, i: nat, answer: Answer)
    requires i < |u.calls| && u.calls[i].phase == Answered(answer)
    ensures
      var x, tx := u.db, RecordTx(u.db, u.calls[i].operation, answer);
      Step(u, Records(i)).sends == u.sends && Step(u, Records(i)).db == if tx.Ok? then tx.value else x
  {
  }

  lemma SentAndRecorded(u: World, o: nat, answer: Answer)
    requires DbInv(u.db) && u.calls != [] && u.calls[|u.calls| - 1] == Call(o, Committed, false)
    requires o < |u.db.ops| && u.db.ops[o].state == Dispatched
    ensures
      var v := Step(Step(u, Sends(|u.calls| - 1, answer)), Records(|u.calls| - 1));
      v.sends == u.sends + [o] && CameTo(v.db, o, answer, Report(u.db, o, answer))
  {
    var i := |u.calls| - 1;
    SendAnswers(u, i, answer);
    RecordCloses(Step(u, Sends(i, answer)), i, answer);
    AnswerComesTo(u.db, o, answer);
  }

  lemma CommittedComesTo(w: World, reg: Registry, o: nat, a: nat, d: Decision, answer: Answer)
    requires Inv(w) && CommitTx(reg, w.db, o, a, d, w.now, w.now).Ok?
    ensures
      var u := Step(w, Commits(reg, o, a, d, w.now));
      var v := Step(Step(u, Sends(|w.calls|, answer)), Records(|w.calls|));
      v.sends == w.sends + [o] && CameTo(v.db, o, answer, Report(u.db, o, answer))
  {
    var u := Step(w, Commits(reg, o, a, d, w.now));
    CommitOpens(w, reg, o, a, d);
    CommitLeaves(reg, w.db, o, a, d, w.now, w.now);
    Transactions.CommitKeepsDb(reg, w.db, o, a, d, w.now, w.now);
    SentAndRecorded(u, o, answer);
  }

  lemma CommitFails(w: World, reg: Registry, o: nat, a: nat, d: Decision)
    requires CommitTx(reg, w.db, o, a, d, w.now, w.now).Err?
    ensures Step(w, Commits(reg, o, a, d, w.now)) == w
  {
  }

  /** A cleared dispatch that nobody disturbs calls the provider once, for its own operation, and then has the outcome the
      provider stated on record, or knows that it does not know it. */
  lemma Delivers(w: World, v: World, reg: Registry, o: nat, a: nat, d: Decision, answer: Answer, r: Result<Operation>)
    requires Inv(w) && Awaits(w, reg, o, a) && Cleared(w, reg, o, a, d)
    requires QuietlySent(w, v, reg, o, a, d, w.now, answer, r)
    ensures v.sends == if Clear(w, o, a, d) then w.sends + [o] else w.sends
    ensures if Clear(w, o, a, d) then CameTo(v.db, o, answer, r) else v.db == w.db && r.Err?
  {
    ClearCommits(w, reg, o, a, d);
    if Clear(w, o, a, d) {
      CommittedComesTo(w, reg, o, a, d, answer);
    } else {
      CommitFails(w, reg, o, a, d);
    }
  }

  /** A refused dispatch that nobody disturbs sends nothing: under a live lease it leaves the operation cancelled and its
      exposure given back, and otherwise everything as it was. */
  lemma Withdraws(w: World, v: World, reg: Registry, o: nat, a: nat, r: Result<Operation>)
    requires Inv(w) && Awaits(w, reg, o, a) && QuietlyWithdrawn(w, v, o, a, r)
    ensures v.sends == w.sends && r.Err?
    ensures if Live(w.db.exec, a, w.now)
            then Ends(w.db, v.db, o, OperationCancelled, None, w.db.ops[o].reference) && r == Err(PolicyDenied)
            else v.db == w.db
  {
    CancelLeaves(w.db, o, a, w.now);
    assert OpOk(w.db, o);
  }

  // ----- reconciliation -----

  /** What a lookup comes to for an operation that is in doubt. */
  ghost predicate Established(db: Db, reg: Registry, o: nat, lookup: Answer, r: Result<Operation>) {
    && o < |db.ops|
    && if db.ops[o].provider in reg && Establishes(lookup) && lookup.outcome.cost >= 0
       then r == Ok(db.ops[o]) && Shows(db.ops[o], lookup.outcome)
       else
         && db.ops[o].state == OutcomeUncertain
         && r == Err(if db.ops[o].provider !in reg then NotFound else if Establishes(lookup) then Malformed else OutcomeUnknown)
  }

  lemma ConcludeCloses(u: World, o: nat, answer: Answer)
    ensures
      var x, tx := u.db, RecordTx(u.db, o, answer);
      Step(u, Concludes(o, answer)) == World(if tx.Ok? then tx.value else x, u.now, u.calls, u.sends)
  {
  }

  lemma RecordComesTo(x: Db, reg: Registry, o: nat, lookup: Answer)
    requires DbInv(x) && o < |x.ops| && x.ops[o].state == OutcomeUncertain && x.ops[o].provider in reg
    requires lookup.Unacknowledged? || lookup.outcome.state == OutcomeUncertain || Establishes(lookup)
    ensures
      var answer := if Establishes(lookup) then lookup else Unacknowledged;
      Established(if RecordTx(x, o, answer).Ok? then RecordTx(x, o, answer).value else x, reg, o, lookup, Report(x, o, answer))
  {
    DoubtLeaves(x, o);
    if lookup.Acknowledged? { SettleLeaves(x, o, lookup.outcome); }
  }

  /** No other operation has changed. */
  ghost predicate OnlyOne(x: Db, y: Db, o: nat) {
    |y.ops| == |x.ops| && forall p | 0 <= p < |x.ops| && p != o :: y.ops[p] == x.ops[p]
  }

  lemma RecordsOne(x: Db, o: nat, answer: Answer)
    requires RecordTx(x, o, answer).Ok?
    ensures OnlyOne(x, RecordTx(x, o, answer).value, o)
  {
  }

  lemma LookupComesTo(u: World, v: World, reg: Registry, o: nat, lookup: Answer, r: Result<Operation>)
    requires DbInv(u.db) && o < |u.db.ops| && u.db.ops[o].state == OutcomeUncertain
    requires LookedUp(u, v, u.db.ops[o].provider in reg, o, lookup, r)
    ensures v.sends == u.sends && Established(v.db, reg, o, lookup, r) && OnlyOne(u.db, v.db, o)
  {
    if u.db.ops[o].provider in reg && (lookup.Unacknowledged? || lookup.outcome.state == OutcomeUncertain || Establishes(lookup)) {
      var answer := if Establishes(lookup) then lookup else Unacknowledged;
      ConcludeCloses(u, o, answer);
      if RecordTx(u.db, o, answer).Ok? { RecordsOne(u.db, o, answer); }
      RecordComesTo(u.db, reg, o, lookup);
    }
  }

  lemma DoubtComesTo(w: World, u: World, o: nat, doubted: Result<Operation>)
    requires DbInv(w.db) && o < |w.db.ops| && (w.db.ops[o].state == Dispatched || w.db.ops[o].state == OutcomeUncertain)
    requires Doubted(w, u, o, w.db.ops[o], doubted)
    ensures DbInv(u.db) && u.sends == w.sends && o < |u.db.ops| && u.db.ops[o].state == OutcomeUncertain && doubted == Ok(u.db.ops[o])
    ensures OnlyOne(w.db, u.db, o)
  {
    DoubtLeaves(w.db, o);
    if w.db.ops[o].state == Dispatched {
      ConcludeCloses(w, o, Unacknowledged);
      RecordsOne(w.db, o, Unacknowledged);
      Transactions.MarkUnknownKeepsDb(w.db, o, w.now);
    }
  }

  /** Reconciliation that nobody disturbs sends nothing, and settles what is in doubt by what the provider's lookup
      establishes; if it establishes nothing, the operation stays in doubt. */
  lemma Reconciles(w: World, v: World, reg: Registry, o: nat, lookup: Answer, r: Result<Operation>)
    requires Inv(w) && o < |w.db.ops| && (w.db.ops[o].state == Dispatched || w.db.ops[o].state == OutcomeUncertain)
    requires QuietlyReconciled(w, v, reg, o, lookup, r)
    ensures v.sends == w.sends && Established(v.db, reg, o, lookup, r) && OnlyOne(w.db, v.db, o)
  {
    var u: World, doubted: Result<Operation> :|
      && Doubted(w, u, o, w.db.ops[o], doubted)
      && if doubted.Err? then v == u && r == doubted else LookedUp(u, v, doubted.value.provider in reg, o, lookup, r);
    DoubtComesTo(w, u, o, doubted);
    LookupComesTo(u, v, reg, o, lookup, r);
  }
}
