/** What every execution transaction keeps: one live lease per task, contiguous fences, permanent staleness,
    bounded failures, and attenuating delegation. */
module Leases {
  import opened Domain
  import opened Execution

  datatype ExecEvent =
    | Create(spec: TaskSpec, guard: bool, purposeValid: bool)
    | Start(task: nat, kind: string, duration: int, began: int)
    | Renew(attempt: nat, duration: int)
    | Revoke(attempt: nat)
    | Fail(attempt: nat, signature: string)
    | Challenge(task: nat, reason: string)
    | Complete(attempt: nat, evidence: bool)
    | Accept(task: nat, evidence: bool)
    | Recover

  function Apply(x: Exec, e: ExecEvent, now: int): Result<Exec> {
    match e
    case Create(spec, guard, valid) =>
      if Grounded(x.tasks, spec) then InsertTask(x, spec, guard, valid) else Err(Exceeds)
    case Start(t, kind, duration, began) => StartAttempt(x, t, kind, duration, began)
    case Renew(a, duration) => RenewLease(x, a, duration, now)
    case Revoke(a) => RevokeLease(x, a)
    case Fail(a, signature) => FailAttempt(x, a, signature, now)
    case Challenge(t, reason) => ChallengeTask(x, t, reason)
    case Complete(a, evidence) => CompleteAttempt(x, a, evidence, now)
    case Accept(t, evidence) => AcceptTask(x, t, evidence)
    case Recover => Ok(RecoverExpired(x, now))
  }

  // ----- single live lease -----

  ghost predicate TaskOk(x: Exec, t: nat)
    requires t < |x.tasks|
  {
    var task := x.tasks[t];
    match task.current
    case None => task.fence == 0 && task.state != Executing
    case Some(a) =>
      && a < |x.attempts| && x.attempts[a].task == t && x.attempts[a].fence == task.fence
      && (task.state == Executing <==> x.attempts[a].lease == Active)
  }

  ghost predicate AttemptOk(x: Exec, a: nat)
    requires a < |x.attempts|
  {
    var attempt := x.attempts[a];
    && attempt.task < |x.tasks|
    && 1 <= attempt.fence <= x.tasks[attempt.task].fence
    && (attempt.fence == x.tasks[attempt.task].fence ==> x.tasks[attempt.task].current == Some(a))
    && (attempt.lease == Active ==> x.tasks[attempt.task].current == Some(a))
  }

  ghost predicate HoldsFence(x: Exec, t: nat, f: nat, a: nat) {
    a < |x.attempts| && x.attempts[a].task == t && x.attempts[a].fence == f
  }

  ghost predicate FenceTaken(x: Exec, t: nat, f: nat) {
    exists a :: HoldsFence(x, t, f, a)
  }

  /** Later attempts of a task hold larger fences, and no fence up to the current one is missing. */
  ghost predicate FencesOk(x: Exec) {
    && (forall a, b | 0 <= a < b < |x.attempts| && x.attempts[a].task == x.attempts[b].task ::
          x.attempts[a].fence < x.attempts[b].fence)
    && (forall t: nat, f: nat | t < |x.tasks| && 1 <= f <= x.tasks[t].fence :: FenceTaken(x, t, f))
  }

  ghost predicate LeaseInv(x: Exec) {
    && (forall t | 0 <= t < |x.tasks| :: TaskOk(x, t))
    && (forall a | 0 <= a < |x.attempts| :: AttemptOk(x, a))
    && FencesOk(x)
  }

  lemma FencesCarryOver(x: Exec, y: Exec)
    requires FencesOk(x)
    requires |y.tasks| >= |x.tasks| && |y.attempts| == |x.attempts|
    requires forall t | 0 <= t < |x.tasks| :: y.tasks[t].fence == x.tasks[t].fence
    requires forall t | |x.tasks| <= t < |y.tasks| :: y.tasks[t].fence == 0
    requires forall a | 0 <= a < |x.attempts| ::
      y.attempts[a].task == x.attempts[a].task && y.attempts[a].fence == x.attempts[a].fence
    ensures FencesOk(y)
  {
    forall t: nat, f: nat | t < |y.tasks| && 1 <= f <= y.tasks[t].fence ensures FenceTaken(y, t, f) {
      assert FenceTaken(x, t, f);
      var a :| HoldsFence(x, t, f, a);
      assert HoldsFence(y, t, f, a);
    }
  }

  lemma CreateKeepsLeases(x: Exec, spec: TaskSpec)
    requires LeaseInv(x)
    ensures LeaseInv(x.(tasks := x.tasks + [Task(spec, Eligible, None, 0)]))
  {
    var y := x.(tasks := x.tasks + [Task(spec, Eligible, None, 0)]);
    FencesCarryOver(x, y);
    forall t | 0 <= t < |y.tasks| ensures TaskOk(y, t) {
      if t < |x.tasks| { assert TaskOk(x, t); }
    }
    forall a | 0 <= a < |y.attempts| ensures AttemptOk(y, a) { assert AttemptOk(x, a); }
  }

  lemma StartKeepsLeases(x: Exec, t: nat, kind: string, duration: int, began: int)
    requires LeaseInv(x) && StartAttempt(x, t, kind, duration, began).Ok?
    ensures LeaseInv(StartAttempt(x, t, kind, duration, began).value)
  {
    var y := StartAttempt(x, t, kind, duration, began).value;
    assert TaskOk(x, t);
    forall a | 0 <= a < |y.attempts| ensures AttemptOk(y, a) {
      if a < |x.attempts| { assert AttemptOk(x, a); }
    }
    forall u: nat, f: nat | u < |y.tasks| && 1 <= f <= y.tasks[u].fence ensures FenceTaken(y, u, f) {
      if u == t && f == y.tasks[t].fence {
        assert HoldsFence(y, u, f, |x.attempts|);
      } else {
        assert FenceTaken(x, u, f);
        var a :| HoldsFence(x, u, f, a);
        assert HoldsFence(y, u, f, a);
      }
    }
    forall u | 0 <= u < |y.tasks| ensures TaskOk(y, u) { assert TaskOk(x, u); }
    forall a, b | 0 <= a < b < |y.attempts| && y.attempts[a].task == y.attempts[b].task
      ensures y.attempts[a].fence < y.attempts[b].fence
    {
      assert AttemptOk(x, a);
    }
  }

  /** Ending a live attempt together with its task's EXECUTING state. */
  lemma DropKeepsLeases(x: Exec, a: nat, state: AttemptState, lease: LeaseState, next: TaskState)
    requires LeaseInv(x) && a < |x.attempts| && x.attempts[a].lease == Active
    requires lease != Active && next != Executing
    ensures x.attempts[a].task < |x.tasks|
    ensures LeaseInv(WithTask(WithAttempt(x, a, state, lease), x.attempts[a].task, next))
  {
    assert AttemptOk(x, a);
    var y := WithTask(WithAttempt(x, a, state, lease), x.attempts[a].task, next);
    FencesCarryOver(x, y);
    forall t | 0 <= t < |y.tasks| ensures TaskOk(y, t) { assert TaskOk(x, t); }
    forall b | 0 <= b < |y.attempts| ensures AttemptOk(y, b) { assert AttemptOk(x, b); }
  }

  lemma RestKeepsLeases(x: Exec, t: nat, next: TaskState)
    requires LeaseInv(x) && t < |x.tasks| && x.tasks[t].state != Executing && next != Executing
    ensures LeaseInv(WithTask(x, t, next))
  {
    var y := WithTask(x, t, next);
    FencesCarryOver(x, y);
    forall u | 0 <= u < |y.tasks| ensures TaskOk(y, u) { assert TaskOk(x, u); }
    forall b | 0 <= b < |y.attempts| ensures AttemptOk(y, b) { assert AttemptOk(x, b); }
  }

  lemma RenewKeepsLeases(x: Exec, a: nat, expires: int)
    requires LeaseInv(x) && a < |x.attempts|
    ensures LeaseInv(x.(attempts := x.attempts[a := x.attempts[a].(expires := expires)]))
  {
    var y := x.(attempts := x.attempts[a := x.attempts[a].(expires := expires)]);
    FencesCarryOver(x, y);
    forall u | 0 <= u < |y.tasks| ensures TaskOk(y, u) { assert TaskOk(x, u); }
    forall b | 0 <= b < |y.attempts| ensures AttemptOk(y, b) { assert AttemptOk(x, b); }
  }

  lemma RecoverKeepsLeases(x: Exec, now: int)
    requires LeaseInv(x)
    ensures LeaseInv(RecoverExpired(x, now))
  {
    var y := RecoverExpired(x, now);
    FencesCarryOver(x, y);
    forall u | 0 <= u < |y.tasks| ensures TaskOk(y, u) { assert TaskOk(x, u); }
    forall b | 0 <= b < |y.attempts| ensures AttemptOk(y, b) {
      assert AttemptOk(x, b);
      assert TaskOk(x, x.attempts[b].task);
    }
  }

  lemma LoggingKeepsLeases(x: Exec, failures: seq<Failure>, completions: set<nat>)
    requires LeaseInv(x)
    ensures LeaseInv(x.(failures := failures, completions := completions))
  {
    var y := x.(failures := failures, completions := completions);
    FencesCarryOver(x, y);
    forall u | 0 <= u < |x.tasks| ensures TaskOk(y, u) { assert TaskOk(x, u); }
    forall b | 0 <= b < |x.attempts| ensures AttemptOk(y, b) { assert AttemptOk(x, b); }
  }

  lemma RevokeKeepsLeases(x: Exec, a: nat)
    requires LeaseInv(x) && RevokeLease(x, a).Ok?
    ensures LeaseInv(RevokeLease(x, a).value)
  {
    if x.attempts[a].lease == Active {
      assert AttemptOk(x, a) && TaskOk(x, x.attempts[a].task);
      DropKeepsLeases(x, a, AttemptCancelled, Revoked, Eligible);
    }
  }

  lemma FailKeepsLeases(x: Exec, a: nat, signature: string, now: int)
    requires LeaseInv(x) && FailAttempt(x, a, signature, now).Ok?
    ensures LeaseInv(FailAttempt(x, a, signature, now).value)
  {
    var logged := x.(failures := x.failures + [Failure(x.attempts[a].task, a, signature)]);
    LoggingKeepsLeases(x, logged.failures, x.completions);
    DropKeepsLeases(logged, a, AttemptFailed, Revoked, Eligible);
    DropKeepsLeases(logged, a, AttemptFailed, Revoked, Blocked);
  }

  lemma ChallengeKeepsLeases(x: Exec, t: nat, reason: string)
    requires LeaseInv(x) && ChallengeTask(x, t, reason).Ok?
    ensures LeaseInv(ChallengeTask(x, t, reason).value)
  {
    assert TaskOk(x, t);
    if x.tasks[t].state == Executing {
      DropKeepsLeases(x, x.tasks[t].current.value, AttemptCancelled, Revoked, Challenged);
    } else {
      RestKeepsLeases(x, t, Challenged);
    }
  }

  lemma CompleteKeepsLeases(x: Exec, a: nat, evidence: bool, now: int)
    requires LeaseInv(x) && CompleteAttempt(x, a, evidence, now).Ok?
    ensures LeaseInv(CompleteAttempt(x, a, evidence, now).value)
  {
    LoggingKeepsLeases(x, x.failures, x.completions + {a});
    DropKeepsLeases(x.(completions := x.completions + {a}), a, Completed, Revoked, AwaitingVerification);
  }

  lemma ApplyKeepsLeases(x: Exec, e: ExecEvent, now: int)
    requires LeaseInv(x) && Apply(x, e, now).Ok?
    ensures LeaseInv(Apply(x, e, now).value)
  {
    match e
    case Create(spec, guard, valid) => CreateKeepsLeases(x, spec);
    case Start(t, kind, duration, began) => StartKeepsLeases(x, t, kind, duration, began);
    case Renew(a, duration) => RenewKeepsLeases(x, a, now + duration);
    case Revoke(a) => RevokeKeepsLeases(x, a);
    case Fail(a, signature) => FailKeepsLeases(x, a, signature, now);
    case Challenge(t, reason) => ChallengeKeepsLeases(x, t, reason);
    case Complete(a, evidence) => CompleteKeepsLeases(x, a, evidence, now);
    case Accept(t, evidence) => RestKeepsLeases(x, t, Succeeded);
    case Recover => RecoverKeepsLeases(x, now);
  }
}
