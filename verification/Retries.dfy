/** Failure records per task: each signature may fail once, the first repetition blocks the task for good. */
module Retries {
  import opened Domain
  import opened Strings
  import opened Execution
  import opened Leases
  import opened Staleness

  function Distinct(m: multiset<string>): set<string> {
    set s | s in m
  }

  ghost predicate RetryOk(x: Exec, t: nat)
    requires t < |x.tasks|
  {
    var failed := Signatures(x.failures, t);
    || |failed| == |Distinct(failed)|
    || (|failed| == |Distinct(failed)| + 1 && Parked(x.tasks[t].state))
  }

  ghost predicate RetryInv(x: Exec) {
    && (forall t | 0 <= t < |x.tasks| :: RetryOk(x, t))
    && (forall i | 0 <= i < |x.failures| :: x.failures[i].task < |x.tasks|)
  }

  lemma {:induction false} NoSignatures(failures: seq<Failure>, t: nat)
    requires forall i | 0 <= i < |failures| :: failures[i].task != t
    ensures Signatures(failures, t) == multiset{}
  {
    if failures != [] { NoSignatures(failures[..|failures| - 1], t); }
  }

  lemma SignaturesAppend(failures: seq<Failure>, f: Failure, t: nat)
    ensures Signatures(failures + [f], t)
         == if f.task == t then Signatures(failures, t) + multiset{f.signature} else Signatures(failures, t)
  {
    assert (failures + [f])[..|failures|] == failures;
  }

  /** Adding a signature raises the number of distinct signatures exactly when it is new. */
  lemma DistinctGrows(m: multiset<string>, s: string)
    ensures |Distinct(m + multiset{s})| == |Distinct(m)| + (if s in m then 0 else 1)
  {
    if s in m {
      assert Distinct(m + multiset{s}) == Distinct(m);
    } else {
      assert Distinct(m + multiset{s}) == Distinct(m) + {s};
    }
  }

  /** One more record: the task parks exactly when its signature had failed before. */
  lemma RecordSignature(m: multiset<string>, s: string)
    requires |m| == |Distinct(m)|
    ensures (m + multiset{s})[s] > 1 <==> s in m
    ensures |m + multiset{s}| == |Distinct(m + multiset{s})| + (if s in m then 1 else 0)
  {
    DistinctGrows(m, s);
  }

  lemma FailMoves(x: Exec, a: nat, signature: string, now: int)
    requires FailAttempt(x, a, signature, now).Ok?
    ensures a < |x.attempts| && x.attempts[a].task < |x.tasks| && x.tasks[x.attempts[a].task].state == Executing
    ensures
      var y, t, f := FailAttempt(x, a, signature, now).value, x.attempts[a].task, Failure(x.attempts[a].task, a, signature);
      && |y.tasks| == |x.tasks| && y.failures == x.failures + [f]
      && (forall u | 0 <= u < |x.tasks| && u != t :: y.tasks[u] == x.tasks[u])
      && y.tasks[t].state == (if Signatures(x.failures + [f], t)[signature] > 1 then Blocked else Eligible)
  {
    assert Guard(x, a, now) == Ok(x.attempts[a].task);
  }

  lemma FailKeepsRetries(x: Exec, a: nat, signature: string, now: int)
    requires RetryInv(x) && FailAttempt(x, a, signature, now).Ok?
    ensures RetryInv(FailAttempt(x, a, signature, now).value)
  {
    var y := FailAttempt(x, a, signature, now).value;
    FailMoves(x, a, signature, now);
    forall u: nat | u < |y.tasks| ensures RetryOk(y, u) {
      FailKeepsRetry(x, y, Failure(x.attempts[a].task, a, signature), u);
    }
  }

  lemma FailKeepsRetry(x: Exec, y: Exec, f: Failure, u: nat)
    requires u < |x.tasks| == |y.tasks| && RetryOk(x, u) && y.failures == x.failures + [f]
    requires u != f.task ==> y.tasks[u] == x.tasks[u]
    requires u == f.task ==>
      && x.tasks[u].state == Executing
      && y.tasks[u].state == (if Signatures(y.failures, u)[f.signature] > 1 then Blocked else Eligible)
    ensures RetryOk(y, u)
  {
    SignaturesAppend(x.failures, f, u);
    if u == f.task { RecordSignature(Signatures(x.failures, u), f.signature); }
  }

  lemma ApplyKeepsRetries(x: Exec, e: ExecEvent, now: int)
    requires LeaseInv(x) && RetryInv(x) && Apply(x, e, now).Ok?
    ensures RetryInv(Apply(x, e, now).value)
  {
    if e.Fail? {
      FailKeepsRetries(x, e.attempt, e.signature, now);
    } else {
      var y := Apply(x, e, now).value;
      OthersRecordNothing(x, e, now);
      forall t: nat | t < |y.tasks| ensures RetryOk(y, t) {
        if t < |x.tasks| { TaskMoves(x, e, now, t); }
        KeepsRetry(x, y, t);
      }
    }
  }

  lemma OthersRecordNothing(x: Exec, e: ExecEvent, now: int)
    requires Apply(x, e, now).Ok? && !e.Fail?
    ensures Apply(x, e, now).value.failures == x.failures
    ensures |x.tasks| <= |Apply(x, e, now).value.tasks|
  {
  }

  lemma KeepsRetry(x: Exec, y: Exec, t: nat)
    requires RetryInv(x) && y.failures == x.failures && t < |y.tasks|
    requires t < |x.tasks| ==> TaskAdvances(x.tasks[t], y.tasks[t])
    ensures RetryOk(y, t)
  {
    if t < |x.tasks| {
      assert RetryOk(x, t);
    } else {
      NoSignatures(y.failures, t);
      assert Distinct(multiset{}) == {};
    }
  }

  /** The bound itself: one record per distinct signature, plus at most the one that blocked the task. */
  lemma FailuresBounded(x: Exec, t: nat)
    requires RetryInv(x) && t < |x.tasks|
    ensures |Signatures(x.failures, t)| <= |Distinct(Signatures(x.failures, t))| + 1
    ensures (exists s :: Signatures(x.failures, t)[s] > 1) ==> Parked(x.tasks[t].state)
  {
    assert RetryOk(x, t);
    var m := Signatures(x.failures, t);
    if |m| == |Distinct(m)| { SetLike(m); }
  }

  /** A multiset as large as its support holds nothing twice. */
  lemma {:induction false} SetLike(m: multiset<string>)
    requires |m| <= |Distinct(m)|
    ensures forall s :: m[s] <= 1
    ensures |m| == |Distinct(m)|
    decreases |m|
  {
    if m != multiset{} {
      var s :| s in m;
      var rest := m - multiset{s};
      assert m == rest + multiset{s};
      DistinctGrows(rest, s);
      SetLike(rest);
    }
  }

  /** The two signatures a worker may record for one executor kind. */
  function WorkerSignature(kind: string, panicked: bool, task: string): string {
    if panicked then "worker:panic:" + kind + ":" + task else "worker:" + kind + ":" + task
  }

  function WorkerSignatures(kinds: set<string>, task: string): set<string> {
    (set k | k in kinds :: WorkerSignature(k, false, task)) + (set k | k in kinds :: WorkerSignature(k, true, task))
  }

  lemma {:induction false} ImageSmall(kinds: set<string>, panicked: bool, task: string)
    ensures |set k | k in kinds :: WorkerSignature(k, panicked, task)| <= |kinds|
  {
    if kinds == {} {
      assert (set k | k in kinds :: WorkerSignature(k, panicked, task)) == {};
    } else {
      var k :| k in kinds;
      var rest := kinds - {k};
      ImageSmall(rest, panicked, task);
      assert (set j | j in kinds :: WorkerSignature(j, panicked, task))
          == (set j | j in rest :: WorkerSignature(j, panicked, task)) + {WorkerSignature(k, panicked, task)};
    }
  }

  /** With k executor kinds a worker can record at most 2k + 1 failures against a task. */
  lemma WorkerFailuresBounded(x: Exec, t: nat, kinds: set<string>, task: string)
    requires RetryInv(x) && t < |x.tasks|
    requires Distinct(Signatures(x.failures, t)) <= WorkerSignatures(kinds, task)
    ensures |Signatures(x.failures, t)| <= 2 * |kinds| + 1
  {
    FailuresBounded(x, t);
    ImageSmall(kinds, false, task);
    ImageSmall(kinds, true, task);
    SubsetCardinality(Distinct(Signatures(x.failures, t)), WorkerSignatures(kinds, task));
  }
}
