/** What every run keeps about leases, budgets, approvals, retries and delegation, read off the invariant. */
module Guarantees {
  import opened Domain
  import opened Execution
  import opened Leases
  import opened Staleness
  import opened Retries
  import opened Delegation
  import opened Resources
  import opened Approvals
  import opened Operations
  import opened Lockstep
  import opened Transactions
  import opened World
  import opened Runs

  function Reached(now: int, events: seq<Event>): World {
    Run(Boot(now), events)
  }

  lemma ReachedInv(now: int, events: seq<Event>)
    ensures Inv(Reached(now, events))
  {
    StartInv(now);
    RunKeepsInv(Boot(now), events);
  }

  // ----- leases -----

  function FencesOf(x: Exec, t: nat): set<nat> {
    set a | 0 <= a < |x.attempts| && x.attempts[a].task == t :: x.attempts[a].fence
  }

  lemma LiveLease(x: Exec, t: nat, a: nat, b: nat)
    requires LeaseInv(x) && a < |x.attempts| && b < |x.attempts| && x.attempts[a].task == t == x.attempts[b].task
    ensures x.attempts[a].lease == Active && x.attempts[b].lease == Active ==> a == b
    ensures x.attempts[a].fence == x.attempts[b].fence ==> a == b
  {
    assert AttemptOk(x, a) && AttemptOk(x, b);
  }

  lemma FencesFilled(x: Exec, t: nat)
    requires LeaseInv(x) && t < |x.tasks|
    ensures forall f: nat :: f in FencesOf(x, t) <==> 1 <= f <= x.tasks[t].fence
  {
    forall f: nat ensures f in FencesOf(x, t) <==> 1 <= f <= x.tasks[t].fence {
      if 1 <= f <= x.tasks[t].fence {
        assert FenceTaken(x, t, f);
        var a :| HoldsFence(x, t, f, a);
      }
      if f in FencesOf(x, t) {
        var a: nat :| a < |x.attempts| && x.attempts[a].task == t && x.attempts[a].fence == f;
        assert AttemptOk(x, a);
      }
    }
  }

  /** A task has at most one active attempt and executes exactly while its current attempt is active; its attempts
      hold each of the fences 1 up to the current one exactly once, and the current attempt holds the largest. */
  lemma SingleLiveLease(now: int, events: seq<Event>, t: nat)
    requires t < |Reached(now, events).db.exec.tasks|
    ensures
      var x := Reached(now, events).db.exec;
      forall a, b | 0 <= a < |x.attempts| && 0 <= b < |x.attempts| && x.attempts[a].task == t == x.attempts[b].task ::
        && (x.attempts[a].lease == Active && x.attempts[b].lease == Active ==> a == b)
        && (x.attempts[a].fence == x.attempts[b].fence ==> a == b)
    ensures
      var x := Reached(now, events).db.exec;
      var task := x.tasks[t];
      && (task.state == Executing <==>
            task.current.Some? && task.current.value < |x.attempts| && x.attempts[task.current.value].lease == Active)
      && (forall f: nat :: f in FencesOf(x, t) <==> 1 <= f <= task.fence)
      && (task.current.Some? ==>
            task.current.value < |x.attempts| && x.attempts[task.current.value].task == t
            && x.attempts[task.current.value].fence == task.fence)
  {
    ReachedInv(now, events);
    var x := Reached(now, events).db.exec;
    assert TaskOk(x, t);
    FencesFilled(x, t);
    forall a: nat, b: nat | a < |x.attempts| && b < |x.attempts| && x.attempts[a].task == t == x.attempts[b].task
      ensures x.attempts[a].lease == Active && x.attempts[b].lease == Active ==> a == b
      ensures x.attempts[a].fence == x.attempts[b].fence ==> a == b
    {
      LiveLease(x, t, a, b);
    }
  }

  /** Once the fence check turns an attempt away, it does so forever. */
  lemma StaleForever(w: World, events: seq<Event>, a: nat)
    requires Inv(w) && Stale(w.db.exec, a, w.now)
    ensures Stale(Run(w, events).db.exec, a, Run(w, events).now)
  {
    RunKeepsInv(w, events);
  }

  /** The calls that act through an attempt. */
  predicate Through(e: Event, a: nat) {
    match e
    case Executes(Renew(b, _)) => a == b
    case Executes(Fail(b, _)) => a == b
    case Executes(Complete(b, _)) => a == b
    case Prepares(_, r, _, _) => a == r.attempt
    case Cancels(_, b) => a == b
    case Commits(_, _, b, _, _) => a == b
    case _ => false
  }

  lemma StaleRefused(w: World, e: Event, a: nat)
    requires Stale(w.db.exec, a, w.now) && Through(e, a)
    ensures Tx(w, e).Err? && Step(w, e) == w
  {
  }

  /** So nothing that a lost attempt tries later has any effect, however long it waits and whatever happens. */
  lemma StaleAttemptsAreInert(w: World, events: seq<Event>, e: Event, a: nat)
    requires Inv(w) && Stale(w.db.exec, a, w.now) && Through(e, a)
    ensures Step(Run(w, events), e) == Run(w, events)
  {
    StaleForever(w, events, a);
    StaleRefused(Run(w, events), e, a);
  }

  /** An attempt that still passes can only be one whose lease is active, whose task executes, and whose fence is the
      task's current one; every other attempt of that task is stale. */
  lemma OthersAreStale(x: Exec, a: nat, b: nat, now: int)
    requires LeaseInv(x) && Guard(x, a, now).Ok? && b < |x.attempts| && b != a
    requires x.attempts[b].task == x.attempts[a].task
    ensures Stale(x, b, now)
  {
    assert AttemptOk(x, b);
  }

  // ----- budget -----

  /** Each operation owns one reservation and each reservation one operation; their states go together, and a
      settled reservation carries the operation's recorded cost. */
  lemma ReservationsInLockstep(now: int, events: seq<Event>, o: nat)
    requires o < |Reached(now, events).db.ops|
    ensures
      var db := Reached(now, events).db;
      && |db.ledger.rows| == |db.ops|
      && db.ops[o].reservation == o
      && var op, row := db.ops[o], db.ledger.rows[o];
      && (op.state == Prepared || op.state == Dispatched <==> row.state == Held)
      && (op.state == OutcomeUncertain <==> row.state == Unresolved)
      && (op.state == ConfirmedEffect || op.state == ConfirmedNoEffect <==> row.state == Settled)
      && (op.state == OperationCancelled <==> row.state == Released)
      && (row.state == Settled ==> op.cost.Some? && row.actual == op.cost && 0 <= op.cost.value)
  {
    ReachedInv(now, events);
    assert OpOk(Reached(now, events).db, o);
  }

  /** An operation whose recorded cost stayed within what was reserved for it. */
  predicate WithinExposure(db: Db, o: nat)
    requires o < |db.ops| && o < |db.ledger.rows|
  {
    db.ops[o].cost.Some? ==> db.ops[o].cost.value <= db.ledger.rows[o].amount
  }

  /** Settled, held and unresolved exposure of an envelope exceeds its hard limit by no more than the providers'
      overruns, and not at all when every provider respected the exposure it had declared. */
  lemma BudgetHolds(now: int, events: seq<Event>, e: nat)
    requires e < |Reached(now, events).db.ledger.limits|
    ensures
      var db := Reached(now, events).db;
      var l := db.ledger;
      var exposure := Total(l.rows, e, Settled) + Total(l.rows, e, Held) + Total(l.rows, e, Unresolved);
      && exposure <= l.limits[e] + Overrun(l.rows, e)
      && |l.rows| == |db.ops|
      && ((forall o | 0 <= o < |db.ops| && l.rows[o].envelope == e :: WithinExposure(db, o)) ==> exposure <= l.limits[e])
  {
    ReachedInv(now, events);
    var db := Reached(now, events).db;
    ExposureBounded(db.ledger, e);
    if forall o | 0 <= o < |db.ops| && db.ledger.rows[o].envelope == e :: WithinExposure(db, o) {
      forall r: nat | r < |db.ledger.rows| && db.ledger.rows[r].envelope == e ensures WithinReservation(db.ledger.rows[r]) {
        assert OpOk(db, r) && WithinExposure(db, r);
      }
      LimitHolds(db.ledger, e);
    }
  }

  // ----- approvals -----

  /** An approval is approved or consumed only when exactly the required principals approved it and nobody rejected. */
  lemma EveryoneSigned(now: int, events: seq<Event>, a: nat)
    requires a < |Reached(now, events).db.approvals|
    ensures
      var approval := Reached(now, events).db.approvals[a];
      && (approval.state == Approved || approval.state == Consumed ==>
            Approvers(approval) == approval.required && Reject !in approval.verdicts.Values)
      && (approval.state == Rejected <==> Reject in approval.verdicts.Values)
      && approval.state != ApprovalLapsed
  {
    ReachedInv(now, events);
    assert ApprovalOk(Reached(now, events).db.approvals[a]);
  }

  /** The approval of an operation is consumed exactly when the operation has been dispatched. */
  lemma ConsumedWithDispatch(now: int, events: seq<Event>, o: nat)
    requires o < |Reached(now, events).db.ops| && Reached(now, events).db.ops[o].approval.Some?
    ensures
      var db := Reached(now, events).db;
      var a := db.ops[o].approval.value;
      && a < |db.approvals| && db.approvals[a].subject == ExternalOperation(o)
      && (db.approvals[a].state == Consumed <==> db.ops[o].state != Prepared && db.ops[o].state != OperationCancelled)
      && (forall p | 0 <= p < |db.ops| && db.ops[p].approval == Some(a) :: p == o)
  {
    ReachedInv(now, events);
    var db := Reached(now, events).db;
    assert OpOk(db, o);
    forall p: nat | p < |db.ops| && db.ops[p].approval == db.ops[o].approval ensures p == o { assert OpOk(db, p); }
  }

  // ----- retries -----

  /** The failures recorded against a task outnumber their distinct signatures by at most one, and once a signature
      has repeated the task can never be leased again. */
  lemma RetriesEnd(now: int, events: seq<Event>, t: nat)
    requires t < |Reached(now, events).db.exec.tasks|
    ensures
      var x := Reached(now, events).db.exec;
      var failed := Signatures(x.failures, t);
      && |failed| <= |Distinct(failed)| + 1
      && ((exists s :: failed[s] > 1) ==> Parked(x.tasks[t].state))
  {
    ReachedInv(now, events);
    FailuresBounded(Reached(now, events).db.exec, t);
  }

  lemma ParkedForever(w: World, events: seq<Event>, t: nat, kind: string, duration: int, began: int)
    requires Inv(w) && t < |w.db.exec.tasks| && Parked(w.db.exec.tasks[t].state)
    ensures t < |Run(w, events).db.exec.tasks| && Parked(Run(w, events).db.exec.tasks[t].state)
    ensures StartAttempt(Run(w, events).db.exec, t, kind, duration, began).Err?
  {
    RunKeepsInv(w, events);
    assert TaskAdvances(w.db.exec.tasks[t], Run(w, events).db.exec.tasks[t]);
  }

  predicate Records(failures: seq<Failure>, t: nat, allowed: set<string>) {
    forall i | 0 <= i < |failures| && failures[i].task == t :: failures[i].signature in allowed
  }

  lemma {:induction false} RecordedSignatures(failures: seq<Failure>, t: nat, allowed: set<string>)
    requires Records(failures, t, allowed)
    ensures Distinct(Signatures(failures, t)) <= allowed
  {
    if failures != [] {
      var before := failures[..|failures| - 1];
      RecordedSignatures(before, t, allowed);
      forall s | s in Signatures(failures, t) ensures s in allowed {
        if s in Signatures(before, t) { assert s in Distinct(Signatures(before, t)); }
      }
    }
  }

  /** If this event fails task t, it does so with an allowed signature. */
  predicate FailsWith(e: Event, x: Exec, t: nat, allowed: set<string>) {
    (e.Executes? && e.exec.Fail? && e.exec.attempt < |x.attempts| && x.attempts[e.exec.attempt].task == t)
    ==> e.exec.signature in allowed
  }

  ghost predicate AlwaysFailsWith(w: World, events: seq<Event>, t: nat, allowed: set<string>) {
    forall k | 0 <= k < |events| :: FailsWith(events[k], Run(w, events[..k]).db.exec, t, allowed)
  }

  lemma {:induction false} RunRecords(w: World, events: seq<Event>, t: nat, allowed: set<string>)
    requires Inv(w) && Records(w.db.exec.failures, t, allowed) && AlwaysFailsWith(w, events, t, allowed)
    ensures Records(Run(w, events).db.exec.failures, t, allowed)
  {
    if events != [] {
      var n := |events| - 1;
      AllowedBefore(w, events, t, allowed);
      RunRecords(w, events[..n], t, allowed);
      RunKeepsInv(w, events[..n]);
      assert FailsWith(events[n], Run(w, events[..n]).db.exec, t, allowed);
      StepRecords(Run(w, events[..n]), events[n], t, allowed);
    }
  }

  lemma AllowedBefore(w: World, events: seq<Event>, t: nat, allowed: set<string>)
    requires events != [] && AlwaysFailsWith(w, events, t, allowed)
    ensures AlwaysFailsWith(w, events[..|events| - 1], t, allowed)
  {
    var before := events[..|events| - 1];
    forall k | 0 <= k < |before| ensures FailsWith(before[k], Run(w, before[..k]).db.exec, t, allowed) {
      assert before[..k] == events[..k];
      assert FailsWith(events[k], Run(w, events[..k]).db.exec, t, allowed);
    }
  }

  lemma OnlyFailuresRecord(w: World, e: Event)
    requires DataInv(w.db) && Tx(w, e).Ok? && !(e.Executes? && e.exec.Fail?)
    ensures Tx(w, e).value.exec.failures == w.db.exec.failures
  {
    match e
    case Prepares(reg, r, d, began) => PrepareKeepsDb(reg, w.db, r, d, began, w.now);
    case _ =>
  }

  lemma StepRecords(w: World, e: Event, t: nat, allowed: set<string>)
    requires DataInv(w.db) && Records(w.db.exec.failures, t, allowed) && FailsWith(e, w.db.exec, t, allowed)
    ensures Records(Step(w, e).db.exec.failures, t, allowed)
  {
    if Tx(w, e).Ok? {
      if e.Executes? && e.exec.Fail? {
        FailMoves(w.db.exec, e.exec.attempt, e.exec.signature, w.now);
      } else {
        OnlyFailuresRecord(w, e);
      }
    }
  }

  /** A worker with k executor kinds records at most 2k + 1 failures against a task, over any run in which only
      workers fail it: leases may expire, be revoked or be challenged in between, in any order. */
  lemma WorkerRetriesEnd(now: int, events: seq<Event>, t: nat, kinds: set<string>, task: string)
    requires t < |Reached(now, events).db.exec.tasks|
    requires AlwaysFailsWith(Boot(now), events, t, WorkerSignatures(kinds, task))
    ensures |Signatures(Reached(now, events).db.exec.failures, t)| <= 2 * |kinds| + 1
  {
    StartInv(now);
    RunRecords(Boot(now), events, t, WorkerSignatures(kinds, task));
    RecordedSignatures(Reached(now, events).db.exec.failures, t, WorkerSignatures(kinds, task));
    ReachedInv(now, events);
    WorkerFailuresBounded(Reached(now, events).db.exec, t, kinds, task);
  }

  // ----- delegation -----

  /** However deep the delegation, a task stays within what every one of its ancestors was granted; and an
      idempotency key names one task. */
  lemma DelegationHolds(now: int, events: seq<Event>, a: nat, d: nat)
    requires Ancestor(Reached(now, events).db.exec.tasks, a, d)
    ensures
      var tasks := Reached(now, events).db.exec.tasks;
      a < d < |tasks| && Attenuates(tasks[a].spec, tasks[d].spec)
      && (tasks[d].spec.key != "" ==> tasks[a].spec.key != tasks[d].spec.key)
  {
    ReachedInv(now, events);
    DelegationAttenuates(Reached(now, events).db.exec.tasks, a, d);
  }

  /** A child is checked against its parent as read before the transaction; whatever happens in between, what is
      inserted still attenuates the parent. */
  lemma ChildGroundedLater(w: World, events: seq<Event>, parent: nat, request: TaskRequest)
    requires Inv(w) && parent < |w.db.exec.tasks| && ChildSpec(parent, w.db.exec.tasks[parent].spec, request).Ok?
    ensures Grounded(Run(w, events).db.exec.tasks, ChildSpec(parent, w.db.exec.tasks[parent].spec, request).value)
  {
    ChildGrounded(w.db.exec.tasks, parent, request);
    RunKeepsInv(w, events);
    assert TaskAdvances(w.db.exec.tasks[parent], Run(w, events).db.exec.tasks[parent]);
  }
}
