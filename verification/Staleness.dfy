/** How the execution tables may change over time: what a transaction can never undo. */
module Staleness {
  import opened Domain
  import opened Execution
  import opened Leases

  /** An existing attempt that the fence check turns away at this instant. */
  predicate Stale(x: Exec, a: nat, now: int) {
    a < |x.attempts| && Guard(x, a, now).Err?
  }

  predicate Parked(s: TaskState) {
    s == Blocked || s == Challenged
  }

  ghost predicate TaskAdvances(t: Task, u: Task) {
    t.spec == u.spec && t.fence <= u.fence && (Parked(t.state) ==> Parked(u.state))
  }

  ghost predicate AttemptAdvances(a: Attempt, b: Attempt) {
    a.task == b.task && a.fence == b.fence && a.kind == b.kind && (a.lease != Active ==> b.lease == a.lease)
  }

  /** From tables x at time n, some further transactions may lead to tables y at time m. */
  ghost predicate Advances(x: Exec, n: int, y: Exec, m: int) {
    && n <= m
    && |x.tasks| <= |y.tasks| && |x.attempts| <= |y.attempts|
    && (forall t | 0 <= t < |x.tasks| :: TaskAdvances(x.tasks[t], y.tasks[t]))
    && (forall a | 0 <= a < |x.attempts| :: AttemptAdvances(x.attempts[a], y.attempts[a]))
    && (forall a: nat | a < |x.attempts| && Stale(x, a, n) :: Stale(y, a, m))
    && x.failures <= y.failures
  }

  lemma AdvancesTransitive(x: Exec, n: int, y: Exec, m: int, z: Exec, k: int)
    requires Advances(x, n, y, m) && Advances(y, m, z, k)
    ensures Advances(x, n, z, k)
  {
    forall t | 0 <= t < |x.tasks| ensures TaskAdvances(x.tasks[t], z.tasks[t]) {
      assert TaskAdvances(x.tasks[t], y.tasks[t]) && TaskAdvances(y.tasks[t], z.tasks[t]);
    }
    forall a | 0 <= a < |x.attempts| ensures AttemptAdvances(x.attempts[a], z.attempts[a]) {
      assert AttemptAdvances(x.attempts[a], y.attempts[a]) && AttemptAdvances(y.attempts[a], z.attempts[a]);
    }
  }

  lemma WaitingAdvances(x: Exec, n: int, m: int)
    requires n <= m
    ensures Advances(x, n, x, m)
  {
  }

  /** Under the lease invariant an attempt is turned away for one of two reasons: it lost the lease, or time ran out. */
  lemma StaleMeans(x: Exec, a: nat, now: int)
    requires LeaseInv(x) && a < |x.attempts|
    ensures Stale(x, a, now) <==> x.attempts[a].lease != Active || x.attempts[a].expires <= now
  {
    assert AttemptOk(x, a);
    assert TaskOk(x, x.attempts[a].task);
  }

  lemma TaskMoves(x: Exec, e: ExecEvent, now: int, t: nat)
    requires Apply(x, e, now).Ok? && t < |x.tasks|
    ensures t < |Apply(x, e, now).value.tasks|
    ensures TaskAdvances(x.tasks[t], Apply(x, e, now).value.tasks[t])
  {
  }

  lemma AttemptMoves(x: Exec, e: ExecEvent, now: int, a: nat)
    requires Apply(x, e, now).Ok? && a < |x.attempts|
    ensures a < |Apply(x, e, now).value.attempts|
    ensures AttemptAdvances(x.attempts[a], Apply(x, e, now).value.attempts[a])
    ensures Stale(x, a, now) ==> Apply(x, e, now).value.attempts[a].expires == x.attempts[a].expires
  {
  }

  /** A single transaction never revives an attempt, reopens a parked task or rewrites a specification. */
  lemma ApplyAdvances(x: Exec, e: ExecEvent, now: int)
    requires LeaseInv(x) && Apply(x, e, now).Ok?
    ensures Advances(x, now, Apply(x, e, now).value, now)
  {
    var y := Apply(x, e, now).value;
    RowsGrow(x, e, now);
    forall t: nat | t < |x.tasks| ensures TaskAdvances(x.tasks[t], y.tasks[t]) { TaskMoves(x, e, now, t); }
    forall a: nat | a < |x.attempts| ensures AttemptAdvances(x.attempts[a], y.attempts[a]) { AttemptMoves(x, e, now, a); }
    forall a: nat | a < |x.attempts| && Stale(x, a, now) ensures Stale(y, a, now) { StaleStays(x, e, now, a); }
  }

  lemma RowsGrow(x: Exec, e: ExecEvent, now: int)
    requires Apply(x, e, now).Ok?
    ensures |x.tasks| <= |Apply(x, e, now).value.tasks|
    ensures |x.attempts| <= |Apply(x, e, now).value.attempts|
    ensures x.failures <= Apply(x, e, now).value.failures
  {
  }

  lemma StaleStays(x: Exec, e: ExecEvent, now: int, a: nat)
    requires LeaseInv(x) && Apply(x, e, now).Ok? && Stale(x, a, now)
    ensures Stale(Apply(x, e, now).value, a, now)
  {
    AttemptMoves(x, e, now, a);
    ApplyKeepsLeases(x, e, now);
    StaleMeans(x, a, now);
    StaleMeans(Apply(x, e, now).value, a, now);
  }
}
