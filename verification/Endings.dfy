/** What each transaction on tasks and attempts needs in order to go through, and what it leaves behind, read off the
    rows alone. */
module Endings {
  import opened Domain
  import opened Execution
  import opened Leases
  import opened Terms

  /** Between x and y only one task changed its state, and only one attempt its state and lease. */
  ghost predicate Leaves(x: Exec, y: Exec, a: nat, how: AttemptState, lease: LeaseState, t: nat, state: TaskState) {
    && a < |x.attempts| && t < |x.tasks|
    && y.attempts == x.attempts[a := Attempt(x.attempts[a].task, how, x.attempts[a].fence, lease, x.attempts[a].expires, x.attempts[a].kind)]
    && y.tasks == x.tasks[t := Task(x.tasks[t].spec, state, x.tasks[t].current, x.tasks[t].fence)]
  }

  /** An eligible task is leased to a new attempt, which holds the task's next fence from when the call began. */
  lemma StartLeaves(x: Exec, t: nat, kind: string, duration: int, began: int)
    ensures StartAttempt(x, t, kind, duration, began).Ok? <==>
      kind != "" && duration > 0 && t < |x.tasks| && x.tasks[t].state == Eligible
    ensures StartAttempt(x, t, kind, duration, began).Ok? ==>
      var y, task, a := StartAttempt(x, t, kind, duration, began).value, x.tasks[t], |x.attempts|;
      && |y.attempts| == a + 1 && y.attempts[..a] == x.attempts
      && y.attempts[a] == Attempt(t, Leased, task.fence + 1, Active, began + duration, kind)
      && |y.tasks| == |x.tasks| && y.tasks[t] == Task(task.spec, Executing, Some(a), task.fence + 1)
      && (forall u | 0 <= u < |x.tasks| && u != t :: y.tasks[u] == x.tasks[u])
      && y.failures == x.failures && y.completions == x.completions
  {
  }

  /** A live lease is prolonged from now, and nothing else changes. */
  lemma RenewLeaves(x: Exec, a: nat, duration: int, now: int)
    requires LeaseInv(x)
    ensures RenewLease(x, a, duration, now).Ok? <==> duration > 0 && Live(x, a, now)
    ensures RenewLease(x, a, duration, now).Ok? ==>
      var y, was := RenewLease(x, a, duration, now).value, x.attempts[a];
      && |y.attempts| == |x.attempts|
      && y.attempts[a] == Attempt(was.task, was.state, was.fence, Active, now + duration, was.kind)
      && (forall b | 0 <= b < |x.attempts| && b != a :: y.attempts[b] == x.attempts[b])
      && y.tasks == x.tasks && y.failures == x.failures && y.completions == x.completions
  {
    LiveMeans(x, a, now);
  }

  /** Revocation never fails for an attempt on record. An active lease is revoked, and the task, if it executes under it,
      is eligible again; otherwise nothing changes. */
  lemma RevokeLeaves(x: Exec, a: nat)
    requires LeaseInv(x)
    ensures RevokeLease(x, a).Ok? <==> a < |x.attempts|
    ensures a < |x.attempts| ==>
      var y := RevokeLease(x, a).value;
      && y.failures == x.failures && y.completions == x.completions
      && if x.attempts[a].lease == Active
         then Leaves(x, y, a, AttemptCancelled, Revoked, x.attempts[a].task, Eligible) else y == x
  {
    if a < |x.attempts| {
      assert AttemptOk(x, a);
      if x.attempts[a].lease == Active { assert TaskOk(x, x.attempts[a].task); }
    }
  }

  /** A live attempt fails with a signature; its task is eligible again, or blocked if the signature was on record. */
  lemma FailLeaves(x: Exec, a: nat, signature: string, now: int)
    requires LeaseInv(x)
    ensures FailAttempt(x, a, signature, now).Ok? <==> signature != "" && Live(x, a, now)
    ensures FailAttempt(x, a, signature, now).Ok? ==>
      var y, t := FailAttempt(x, a, signature, now).value, x.attempts[a].task;
      && y.failures == x.failures + [Failure(t, a, signature)] && y.completions == x.completions
      && Leaves(x, y, a, AttemptFailed, Revoked, t,
                if exists k :: 0 <= k < |x.failures| && x.failures[k].task == t && x.failures[k].signature == signature
                then Blocked else Eligible)
  {
    LiveMeans(x, a, now);
    if signature != "" && Live(x, a, now) {
      var t := x.attempts[a].task;
      assert (x.failures + [Failure(t, a, signature)])[..|x.failures|] == x.failures;
      OnRecord(x.failures, t, signature);
    }
  }

  lemma {:induction false} OnRecord(failures: seq<Failure>, t: nat, signature: string)
    ensures Signatures(failures, t)[signature] > 0 <==>
      exists k :: 0 <= k < |failures| && failures[k].task == t && failures[k].signature == signature
  {
    if failures != [] {
      var n := |failures| - 1;
      OnRecord(failures[..n], t, signature);
      assert forall k | 0 <= k < n :: failures[k] == failures[..n][k];
    }
  }

  /** Any task can be challenged, whatever its state; an attempt that holds it loses its lease. */
  lemma ChallengeLeaves(x: Exec, t: nat, reason: string)
    requires LeaseInv(x)
    ensures ChallengeTask(x, t, reason).Ok? <==> reason != "" && t < |x.tasks|
    ensures ChallengeTask(x, t, reason).Ok? ==>
      var y, current := ChallengeTask(x, t, reason).value, x.tasks[t].current;
      && y.failures == x.failures && y.completions == x.completions
      && if current.Some? && current.value < |x.attempts| && x.attempts[current.value].lease == Active
         then Leaves(x, y, current.value, AttemptCancelled, Revoked, t, Challenged)
         else y.attempts == x.attempts && y.tasks == x.tasks[t := Task(x.tasks[t].spec, Challenged, current, x.tasks[t].fence)]
  {
  }

  /** A live attempt that brings evidence completes, and its task waits for verification. */
  lemma CompleteLeaves(x: Exec, a: nat, evidence: bool, now: int)
    requires LeaseInv(x)
    ensures CompleteAttempt(x, a, evidence, now).Ok? <==> evidence && Live(x, a, now)
    ensures CompleteAttempt(x, a, evidence, now).Ok? ==>
      var y := CompleteAttempt(x, a, evidence, now).value;
      && y.failures == x.failures && y.completions == x.completions + {a}
      && Leaves(x, y, a, Completed, Revoked, x.attempts[a].task, AwaitingVerification)
  {
    LiveMeans(x, a, now);
  }

  /** Acceptance needs evidence, and a task that awaits verification with a completion of its current attempt. */
  lemma AcceptLeaves(x: Exec, t: nat, evidence: bool)
    ensures AcceptTask(x, t, evidence).Ok? <==>
      evidence && t < |x.tasks| && x.tasks[t].state == AwaitingVerification
      && x.tasks[t].current.Some? && x.tasks[t].current.value in x.completions
    ensures AcceptTask(x, t, evidence).Ok? ==>
      var y := AcceptTask(x, t, evidence).value;
      && y.attempts == x.attempts && y.failures == x.failures && y.completions == x.completions
      && y.tasks == x.tasks[t := Task(x.tasks[t].spec, Succeeded, x.tasks[t].current, x.tasks[t].fence)]
  {
  }

  /** Recovery ends exactly the attempts whose active lease has run out, and frees exactly the tasks that were executing
      under them; answers, failures and completions stay. */
  lemma RecoverLeaves(x: Exec, now: int, a: nat, t: nat)
    requires LeaseInv(x) && a < |x.attempts| && t < |x.tasks|
    ensures
      var y, was := RecoverExpired(x, now), x.attempts[a];
      && |y.attempts| == |x.attempts| && |y.tasks| == |x.tasks| && y.failures == x.failures && y.completions == x.completions
      && y.attempts[a] == (if was.lease == Active && was.expires <= now
                           then Attempt(was.task, AttemptExpired, was.fence, Lapsed, was.expires, was.kind) else was)
      && y.tasks[t] == (if x.tasks[t].state == Executing && (x.tasks[t].current.None? || !Live(x, x.tasks[t].current.value, now))
                        then Task(x.tasks[t].spec, Eligible, x.tasks[t].current, x.tasks[t].fence) else x.tasks[t])
  {
    assert TaskOk(x, t);
  }

  /** A task is created under a guard and a valid purpose, eligible and with no attempt, unless its key is taken: then
      the holder of the key answers for it if it has the very same specification. */
  lemma CreateLeaves(x: Exec, spec: TaskSpec, guard: bool, valid: bool)
    ensures
      var taken := spec.key != "" && exists t :: 0 <= t < |x.tasks| && x.tasks[t].spec.key == spec.key;
      match InsertTask(x, spec, guard, valid)
      case Err(_) => !guard || (if taken then TaskId(x.tasks, spec) < |x.tasks| && x.tasks[TaskId(x.tasks, spec)].spec != spec else !valid)
      case Ok(y) =>
        guard && if taken then y == x && TaskId(x.tasks, spec) < |x.tasks| && x.tasks[TaskId(x.tasks, spec)].spec == spec
                 else valid && y == x.(tasks := x.tasks + [Task(spec, Eligible, None, 0)])
  {
    var found := FindKey(x.tasks, spec.key);
  }
}
