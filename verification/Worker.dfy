/** One step of the worker: lease a task, run an executor, and complete or fail the attempt. Other processes may
    renew, revoke, challenge or recover in between. */
module Worker {
  import opened Domain
  import opened Execution
  import opened Leases
  import opened Staleness
  import opened Retries
  import opened World
  import opened Runs
  import opened Box
  import opened DispatchService
  import opened Terms
  import opened Endings
  import ExecutionService

  datatype Outcome = StepIdle | StepCompleted | StepFailed

  datatype StepResult = StepResult(outcome: Outcome, task: nat, attempt: nat)

  /** What running the executor came to, and whether its evidence could be stored. */
  datatype Executed = Executed(failed: bool, panicked: bool, evidence: bool, stored: bool)

  /** Event k of the trace is the call's own successful lease e, and a is the attempt it made. */
  ghost predicate ObtainedAt(start: World, trace: seq<Move>, k: nat, e: Event, a: nat) {
    && k < |trace| && trace[k] == Own(e)
    && var before := Run(start, Events(trace[..k]));
    Tx(before, e).Ok? && a == |before.db.exec.attempts|
  }

  ghost predicate Obtained(start: World, trace: seq<Move>, e: Event, a: nat) {
    exists k: nat :: ObtainedAt(start, trace, k, e, a)
  }

  lemma ObtainedStill(start: World, trace: seq<Move>, longer: seq<Move>, e: Event, a: nat)
    requires Obtained(start, trace, e, a) && trace <= longer
    ensures Obtained(start, longer, e, a)
  {
    var k: nat :| ObtainedAt(start, trace, k, e, a);
    assert longer[..k] == trace[..k];
    assert ObtainedAt(start, longer, k, e, a);
  }

  /** What the caller of a transaction is told. */
  function Told(w: World, e: Event): Result<()> {
    match Tx(w, e)
    case Ok(_) => Ok(())
    case Err(error) => Err(error)
  }

  method LeaseStep(box: Box, t: nat, kind: string, duration: int, ghost start: World, ghost trace: seq<Move>)
    returns (r: Result<nat>, ghost longer: seq<Move>)
    requires box.State() == Run(start, Events(trace))
    modifies box
    ensures box.State() == Run(start, Events(longer))
    ensures Mine(longer) == Mine(trace) + [Executes(Start(t, kind, duration, old(box.now)))]
    ensures box.State() == Step(old(box.State()), Executes(Start(t, kind, duration, old(box.now))))
    ensures match Told(old(box.State()), Executes(Start(t, kind, duration, old(box.now))))
            case Ok(_) => r == Ok(|old(box.attempts)|)
            case Err(e) => r == Err(e)
    ensures r.Ok? ==> r.value < |box.attempts| && Obtained(start, longer, Executes(Start(t, kind, duration, old(box.now))), r.value)
    ensures Leads(old(box.State()), box.State())
  {
    ghost var e := Executes(Start(t, kind, duration, box.now));
    ghost var next := Step(box.State(), e);
    OwnStep(start, trace, e);
    StepLeads(box.State(), e);
    longer := trace + [Own(e)];
    r := ExecutionService.Lease(box, t, kind, duration, box.now);
    assert box.State() == next;
    assert longer[..|trace|] == trace;
    assert r.Ok? ==> ObtainedAt(start, longer, |trace|, e, r.value);
  }

  predicate Lost(r: Result<()>) {
    r == Err(StaleAttempt) || r == Err(LeaseInactive)
  }

  /** However the completion ends, short of any other error, the attempt is stale afterwards. */
  method CompleteStep(box: Box, a: nat, ghost start: World, ghost trace: seq<Move>)
    returns (r: Result<()>, ghost longer: seq<Move>)
    requires box.State() == Run(start, Events(trace)) && a < |box.attempts|
    modifies box
    ensures box.State() == Run(start, Events(longer))
    ensures Mine(longer) == Mine(trace) + [Executes(Complete(a, true))] && trace <= longer
    ensures box.State() == Step(old(box.State()), Executes(Complete(a, true))) && r == Told(old(box.State()), Executes(Complete(a, true)))
    ensures r.Ok? || Lost(r) ==> Stale(box.Work(), a, box.now)
    ensures r.Ok? ==> a < |box.attempts| && box.attempts[a].state == Completed
  {
    ghost var e := Executes(Complete(a, true));
    ghost var next := Step(box.State(), e);
    OwnStep(start, trace, e);
    longer := trace + [Own(e)];
    r := ExecutionService.Complete(box, a, true);
    assert box.State() == next;
  }

  method FailStep(box: Box, a: nat, signature: string, ghost start: World, ghost trace: seq<Move>)
    returns (r: Result<()>, ghost longer: seq<Move>)
    requires box.State() == Run(start, Events(trace)) && a < |box.attempts| && signature != ""
    modifies box
    ensures box.State() == Run(start, Events(longer))
    ensures Mine(longer) == Mine(trace) + [Executes(Fail(a, signature))] && trace <= longer
    ensures box.State() == Step(old(box.State()), Executes(Fail(a, signature))) && r == Told(old(box.State()), Executes(Fail(a, signature)))
    ensures r.Ok? || Lost(r) ==> Stale(box.Work(), a, box.now)
  {
    ghost var e := Executes(Fail(a, signature));
    ghost var next := Step(box.State(), e);
    OwnStep(start, trace, e);
    longer := trace + [Own(e)];
    r := ExecutionService.Fail(box, a, signature);
    assert box.State() == next;
  }

  /** How a worker that leased attempt a for an executor of this kind ends it. */
  predicate Ending(e: Event, a: nat, kind: string, name: string) {
    e == Executes(Complete(a, true)) || exists panicked :: e == Executes(Fail(a, WorkerSignature(kind, panicked, name)))
  }

  /** The worker's own events: nothing, a lease, or a lease and one ending of the very attempt it leased. */
  ghost predicate WorkerSteps(start: World, trace: seq<Move>, leased: nat, kinds: set<string>, name: string) {
    var mine := Mine(trace);
    && |mine| <= 2
    && (|mine| >= 1 ==> mine[0].Executes? && mine[0].exec.Start? && mine[0].exec.kind in kinds)
    && (|mine| == 2 ==> Obtained(start, trace, mine[0], leased) && Ending(mine[1], leased, mine[0].exec.kind, name))
  }

  /** How the worker ends the attempt after this execution: it completes one that succeeded and left evidence, and fails
      any other under the signature for its kind, or for a panic of its kind. */
  function EndingFor(a: nat, kind: string, name: string, execution: Executed): Event {
    if !execution.failed && execution.evidence then Executes(Complete(a, true))
    else Executes(Fail(a, WorkerSignature(kind, execution.failed && execution.panicked, name)))
  }

  /** What a step reports: a lease that was lost meanwhile counts as failed, and only other errors come through. */
  function Reported(t: nat, a: nat, e: Event, told: Result<()>): Result<StepResult> {
    if told.Ok? then Ok(StepResult(if e == Executes(Complete(a, true)) then StepCompleted else StepFailed, t, a))
    else if Lost(told) then Ok(StepResult(StepFailed, t, a))
    else Err(told.error)
  }

  /** A step that leases task t: others act before the lease, and between the lease and the ending. */
  ghost predicate Performed(w: World, v: World, t: nat, kind: string, name: string, duration: int, execution: Executed,
                            others: nat -> seq<Event>, r: Result<StepResult>)
  {
    var u := Run(w, others(0));
    var lease, a := Executes(Start(t, kind, duration, u.now)), |u.db.exec.attempts|;
    var x := Run(Step(u, lease), others(1));
    match Told(u, lease)
    case Err(e) => v == Step(u, lease) && r == Err(e)
    case Ok(_) =>
      if !execution.stored then v == x && r == Err(NotFound)
      else v == Step(x, EndingFor(a, kind, name, execution))
           && r == Reported(t, a, EndingFor(a, kind, name, execution), Told(x, EndingFor(a, kind, name, execution)))
  }

  /** One step. Whenever it ends without an error and was not idle, the attempt it leased is stale, however the executor
      fared and whatever others did to the lease; a failure it records carries the worker's own signature. */
  method StepOnce(box: Box, candidate: Result<Option<nat>>, choice: Result<string>, kinds: set<string>, name: string,
                  duration: int, execution: Executed, others: nat -> seq<Event>)
    returns (r: Result<StepResult>, ghost trace: seq<Move>, ghost leased: nat)
    requires Inv(box.State())
    modifies box
    ensures box.State() == Run(old(box.State()), Events(trace))
    ensures WorkerSteps(old(box.State()), trace, leased, kinds, name)
    ensures if candidate.Ok? && candidate.value.Some? && choice.Ok? && choice.value in kinds
            then Performed(old(box.State()), box.State(), candidate.value.value, choice.value, name, duration, execution, others, r)
            else box.State() == old(box.State()) && (r.Err? <==> candidate != Ok(None))
    ensures r.Ok? && r.value.outcome != StepIdle ==>
      && |Mine(trace)| == 2 && candidate == Ok(Some(r.value.task)) && r.value.attempt == leased
      && Stale(box.Work(), leased, box.now)
    ensures r.Ok? && r.value.outcome == StepCompleted ==> leased < |box.attempts| && box.attempts[leased].state == Completed
    ensures r.Ok? ==> (r.value.outcome == StepIdle <==> candidate == Ok(None))
  {
    ghost var start := box.State();
    trace, leased := [], 0;
    assert Events(trace) == [];
    if candidate.Err? { return Err(candidate.error), trace, leased; }
    if candidate.value.None? { return Ok(StepResult(StepIdle, 0, 0)), trace, leased; }
    var t := candidate.value.value;
    if choice.Err? { return Err(choice.error), trace, leased; }
    var kind := choice.value;
    if kind !in kinds { return Err(NotFound), trace, leased; }
    r, trace, leased := LeaseAndRun(box, t, kind, kinds, name, duration, execution, others, start, trace);
  }

  lemma AttemptRemains(w: World, v: World, a: nat)
    requires Inv(w) && Leads(w, v) && a < |w.db.exec.attempts|
    ensures a < |v.db.exec.attempts|
  {
  }

  /** The leasing half of a step: others act before the lease is taken and while the executor runs. */
  method Acquire(box: Box, t: nat, kind: string, duration: int, others: nat -> seq<Event>, ghost start: World, ghost before: seq<Move>)
    returns (r: Result<nat>, ghost trace: seq<Move>)
    requires Inv(box.State()) && box.State() == Run(start, Events(before)) && Mine(before) == []
    modifies box
    ensures box.State() == Run(start, Events(trace))
    ensures
      var u := Run(old(box.State()), others(0));
      var lease := Executes(Start(t, kind, duration, u.now));
      && Mine(trace) == [lease]
      && match Told(u, lease)
         case Ok(_) => r == Ok(|u.db.exec.attempts|) && box.State() == Run(Step(u, lease), others(1))
         case Err(e) => r == Err(e) && box.State() == Step(u, lease)
    ensures r.Ok? ==> r.value < |box.attempts| && Obtained(start, trace, Mine(trace)[0], r.value)
  {
    trace := Interleave(box, start, before, others(0));
    r, trace := LeaseStep(box, t, kind, duration, start, trace);
    if r.Ok? {
      ghost var leased, taken := box.State(), trace;
      trace := Interleave(box, start, trace, others(1));
      AttemptRemains(leased, box.State(), r.value);
      ObtainedStill(start, taken, trace, Mine(taken)[0], r.value);
    }
  }

  method LeaseAndRun(box: Box, t: nat, kind: string, kinds: set<string>, name: string, duration: int,
                     execution: Executed, others: nat -> seq<Event>, ghost start: World, ghost before: seq<Move>)
    returns (r: Result<StepResult>, ghost trace: seq<Move>, ghost attempt: nat)
    requires Inv(box.State()) && box.State() == Run(start, Events(before)) && Mine(before) == [] && kind in kinds
    modifies box
    ensures box.State() == Run(start, Events(trace)) && WorkerSteps(start, trace, attempt, kinds, name)
    ensures Performed(old(box.State()), box.State(), t, kind, name, duration, execution, others, r)
    ensures r.Ok? ==>
      && |Mine(trace)| == 2 && r.value.outcome != StepIdle && r.value.task == t && r.value.attempt == attempt
      && Stale(box.Work(), attempt, box.now)
    ensures r.Ok? && r.value.outcome == StepCompleted ==> attempt < |box.attempts| && box.attempts[attempt].state == Completed
  {
    var leased: Result<nat>;
    leased, trace := Acquire(box, t, kind, duration, others, start, before);
    attempt := 0;
    if leased.Err? { return Err(leased.error), trace, attempt; }
    if !execution.stored { return Err(NotFound), trace, attempt; }
    attempt := leased.value;
    ghost var leasing := trace;
    r, trace := Finish(box, t, leased.value, kind, name, execution, start, trace);
    ObtainedStill(start, leasing, trace, Mine(leasing)[0], attempt);
    assert Mine(trace)[0] == Mine(trace)[..|Mine(leasing)|][0];
  }

  /** The second half of a step: completion with evidence, or a recorded failure. */
  method Finish(box: Box, t: nat, a: nat, kind: string, name: string, execution: Executed,
                ghost start: World, ghost before: seq<Move>)
    returns (r: Result<StepResult>, ghost trace: seq<Move>)
    requires box.State() == Run(start, Events(before)) && a < |box.attempts|
    modifies box
    ensures box.State() == Run(start, Events(trace)) && before <= trace
    ensures Mine(trace) == Mine(before) + [EndingFor(a, kind, name, execution)]
    ensures box.State() == Step(old(box.State()), EndingFor(a, kind, name, execution))
    ensures r == Reported(t, a, EndingFor(a, kind, name, execution), Told(old(box.State()), EndingFor(a, kind, name, execution)))
    ensures r.Ok? ==> r.value.outcome != StepIdle && r.value.task == t && r.value.attempt == a && Stale(box.Work(), a, box.now)
    ensures r.Ok? && r.value.outcome == StepCompleted ==> a < |box.attempts| && box.attempts[a].state == Completed
  {
    var ended: Result<()>;
    var completing := !execution.failed && execution.evidence;
    if completing {
      ended, trace := CompleteStep(box, a, start, before);
    } else {
      var signature := WorkerSignature(kind, execution.failed && execution.panicked, name);
      ended, trace := FailStep(box, a, signature, start, before);
    }
    if ended.Err? && !Lost(ended) { return Err(ended.error), trace; }
    r := Ok(StepResult(if completing && ended.Ok? then StepCompleted else StepFailed, t, a));
  }

  // ----- an undisturbed step -----

  lemma LeaseOpens(w: World, t: nat, kind: string, duration: int)
    requires Inv(w) && t < |w.db.exec.tasks| && w.db.exec.tasks[t].state == Eligible && kind != "" && duration > 0
    ensures
      var e, a := Executes(Start(t, kind, duration, w.now)), |w.db.exec.attempts|;
      var u := Step(w, e);
      && Told(w, e) == Ok(()) && Inv(u) && u.now == w.now && Live(u.db.exec, a, u.now) && u.db.exec.attempts[a].task == t < |u.db.exec.tasks|
      && u.db.exec.failures == w.db.exec.failures
  {
    StartLeaves(w.db.exec, t, kind, duration, w.now);
    StepKeepsInv(w, Executes(Start(t, kind, duration, w.now)));
  }

  /** The task has failed this way before. */
  ghost predicate FailedBefore(x: Exec, t: nat, signature: string) {
    exists k :: 0 <= k < |x.failures| && x.failures[k].task == t && x.failures[k].signature == signature
  }

  lemma EndingWorks(u: World, t: nat, a: nat, kind: string, name: string, execution: Executed)
    requires Inv(u) && Live(u.db.exec, a, u.now) && u.db.exec.attempts[a].task == t < |u.db.exec.tasks|
    ensures
      var e := EndingFor(a, kind, name, execution);
      var x := Step(u, e).db.exec;
      && Told(u, e) == Ok(()) && t < |x.tasks|
      && if !execution.failed && execution.evidence then x.tasks[t].state == AwaitingVerification && a in x.completions
         else
           var signature := (if execution.failed && execution.panicked then "worker:panic:" else "worker:") + kind + ":" + name;
           && x.failures == u.db.exec.failures + [Failure(t, a, signature)]
           && x.tasks[t].state == if FailedBefore(u.db.exec, t, signature) then Blocked else Eligible
  {
    var signature := (if execution.failed && execution.panicked then "worker:panic:" else "worker:") + kind + ":" + name;
    assert signature[0] == 'w';
    CompleteLeaves(u.db.exec, a, true, u.now);
    FailLeaves(u.db.exec, a, signature, u.now);
  }

  /** Left alone with an eligible task, the worker leases it and completes it, so that it awaits verification; or, if the
      execution failed or left no evidence, records the failure and leaves the task eligible, or blocked if it had failed
      the same way before. */
  lemma WorksAlone(w: World, v: World, t: nat, kind: string, name: string, duration: int, execution: Executed,
                   others: nat -> seq<Event>, r: Result<StepResult>)
    requires Inv(w) && Performed(w, v, t, kind, name, duration, execution, others, r) && others(0) == [] && others(1) == []
    requires t < |w.db.exec.tasks| && w.db.exec.tasks[t].state == Eligible && kind != "" && duration > 0 && execution.stored
    ensures
      var a, completing, x := |w.db.exec.attempts|, !execution.failed && execution.evidence, v.db.exec;
      && r == Ok(StepResult(if completing then StepCompleted else StepFailed, t, a)) && t < |x.tasks|
      && if completing then x.tasks[t].state == AwaitingVerification && a in x.completions
         else
           var signature := (if execution.failed && execution.panicked then "worker:panic:" else "worker:") + kind + ":" + name;
           && x.failures == w.db.exec.failures + [Failure(t, a, signature)]
           && x.tasks[t].state == if FailedBefore(w.db.exec, t, signature) then Blocked else Eligible
  {
    LeaseOpens(w, t, kind, duration);
    EndingWorks(Step(w, Executes(Start(t, kind, duration, w.now))), t, |w.db.exec.attempts|, kind, name, execution);
  }

  /** If the lease has ended by the time the worker comes to end it, the step counts as failed and changes nothing more. */
  lemma LosesLease(w: World, v: World, t: nat, kind: string, name: string, duration: int, execution: Executed,
                   others: nat -> seq<Event>, r: Result<StepResult>)
    requires Inv(w) && Performed(w, v, t, kind, name, duration, execution, others, r) && execution.stored
    requires
      var u := Run(w, others(0));
      var a, x := |u.db.exec.attempts|, Run(Step(u, Executes(Start(t, kind, duration, u.now))), others(1));
      Told(u, Executes(Start(t, kind, duration, u.now))).Ok? && !Live(x.db.exec, a, x.now)
    ensures
      var u := Run(w, others(0));
      r == Ok(StepResult(StepFailed, t, |u.db.exec.attempts|))
      && v == Run(Step(u, Executes(Start(t, kind, duration, u.now))), others(1))
  {
    var u := Run(w, others(0));
    var lease, a := Executes(Start(t, kind, duration, u.now)), |u.db.exec.attempts|;
    RunKeepsInv(w, others(0));
    StepKeepsInv(u, lease);
    RunKeepsInv(Step(u, lease), others(1));
    EndingLost(Run(Step(u, lease), others(1)), t, a, kind, name, execution);
  }

  lemma SignatureStated(kind: string, panicked: bool, name: string)
    ensures WorkerSignature(kind, panicked, name) != ""
  {
    assert WorkerSignature(kind, panicked, name)[0] == 'w';
  }

  /** A transaction on attempts that fails leaves the world as it is. */
  lemma RefusedStill(x: World, e: ExecEvent)
    requires Apply(x.db.exec, e, x.now).Err?
    ensures Step(x, Executes(e)) == x && Told(x, Executes(e)) == Err(Apply(x.db.exec, e, x.now).error)
  {
  }

  lemma EndingRefused(x: Exec, a: nat, signature: string, now: int)
    requires Guard(x, a, now).Err? && signature != ""
    ensures Apply(x, Complete(a, true), now) == Err(Guard(x, a, now).error) && Apply(x, Fail(a, signature), now) == Err(Guard(x, a, now).error)
    ensures Guard(x, a, now).error == StaleAttempt || Guard(x, a, now).error == LeaseInactive
  {
  }

  lemma EndingLost(x: World, t: nat, a: nat, kind: string, name: string, execution: Executed)
    requires Inv(x) && !Live(x.db.exec, a, x.now)
    ensures
      var e := EndingFor(a, kind, name, execution);
      Step(x, e) == x && Reported(t, a, e, Told(x, e)) == Ok(StepResult(StepFailed, t, a))
  {
    var panicked := execution.failed && execution.panicked;
    LiveMeans(x.db.exec, a, x.now);
    SignatureStated(kind, panicked, name);
    EndingRefused(x.db.exec, a, WorkerSignature(kind, panicked, name), x.now);
    RefusedStill(x, EndingFor(a, kind, name, execution).exec);
  }
}
