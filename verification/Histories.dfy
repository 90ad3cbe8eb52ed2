/** Where the records come from: over every run, what is on the books can be traced back to the calls that put it there,
    and to the state of the books when they did. */
module Histories {
  import opened Domain
  import opened Execution
  import opened Leases
  import opened Staleness
  import opened Transactions
  import opened World
  import opened Runs
  import opened Terms
  import opened Endings

  /** The world after the first k events of a run. */
  function Before(now: int, events: seq<Event>, k: nat): World
    requires k <= |events|
  {
    Run(Boot(now), events[..k])
  }

  lemma BeforeInv(now: int, events: seq<Event>, k: nat)
    requires k <= |events|
    ensures Inv(Before(now, events, k)) && WorldAdvances(Before(now, events, k), Run(Boot(now), events))
  {
    StartInv(now);
    RunPassesThrough(Boot(now), events, k);
  }

  /** What does not hold at first and holds in the end has come to hold at some event. */
  lemma {:induction false} FirstTime(now: int, events: seq<Event>, holds: World -> bool) returns (k: nat)
    requires !holds(Boot(now)) && holds(Run(Boot(now), events))
    ensures k < |events|
    ensures !holds(Before(now, events, k)) && holds(Step(Before(now, events, k), events[k]))
  {
    var n := |events| - 1;
    if holds(Run(Boot(now), events[..n])) {
      k := FirstTime(now, events[..n], holds);
      assert events[..n][..k] == events[..k];
    } else {
      k := n;
    }
  }

  // ----- tasks and attempts -----

  lemma ExecUntouched(w: World, e: Event)
    requires Inv(w) && !e.Executes?
    ensures Step(w, e).db.exec == w.db.exec
  {
    if e.Prepares? && Tx(w, e).Ok? { PrepareKeepsDb(e.registry, w.db, e.request, e.decision, e.began, w.now); }
  }

  /** What each transaction on the execution tables does to one task and to the completions. */
  lemma ExecMoves(x: Exec, e: ExecEvent, now: int, t: nat)
    requires LeaseInv(x) && Apply(x, e, now).Ok?
    ensures
      var y := Apply(x, e, now).value;
      t < |y.tasks| && y.tasks[t].state == Succeeded && !(t < |x.tasks| && x.tasks[t].state == Succeeded) ==>
        e == Accept(t, true) && t < |x.tasks| && x.tasks[t].state == AwaitingVerification
        && x.tasks[t].current.Some? && x.tasks[t].current.value in x.completions
  {
    match e
    case Create(spec, guard, valid) => CreateLeaves(x, spec, guard, valid);
    case Start(u, kind, duration, began) => StartLeaves(x, u, kind, duration, began);
    case Renew(a, duration) => RenewLeaves(x, a, duration, now);
    case Revoke(a) => RevokeLeaves(x, a);
    case Fail(a, signature) => FailLeaves(x, a, signature, now);
    case Challenge(u, reason) => ChallengeLeaves(x, u, reason);
    case Complete(a, evidence) => CompleteLeaves(x, a, evidence, now);
    case Accept(u, evidence) => AcceptLeaves(x, u, evidence);
    case Recover =>
  }

  lemma ExecCompletes(x: Exec, e: ExecEvent, now: int, a: nat)
    requires LeaseInv(x) && Apply(x, e, now).Ok? && a in Apply(x, e, now).value.completions && a !in x.completions
    ensures e == Complete(a, true) && Live(x, a, now)
  {
    match e
    case Revoke(b) => RevokeLeaves(x, b);
    case Fail(b, signature) => FailLeaves(x, b, signature, now);
    case Challenge(t, reason) => ChallengeLeaves(x, t, reason);
    case Complete(b, evidence) => CompleteLeaves(x, b, evidence, now);
    case _ =>
  }

  ghost predicate HasSucceeded(w: World, t: nat) {
    t < |w.db.exec.tasks| && w.db.exec.tasks[t].state == Succeeded
  }

  lemma StepSucceeds(w: World, e: Event, t: nat)
    requires Inv(w) && HasSucceeded(Step(w, e), t) && !HasSucceeded(w, t)
    ensures e == Executes(Accept(t, true)) && t < |w.db.exec.tasks| && w.db.exec.tasks[t].state == AwaitingVerification
    ensures w.db.exec.tasks[t].current.Some? && w.db.exec.tasks[t].current.value in w.db.exec.completions
  {
    if e.Executes? {
      if Tx(w, e).Ok? { ExecMoves(w.db.exec, e.exec, w.now, t); }
    } else {
      ExecUntouched(w, e);
    }
  }

  lemma StepCompletes(w: World, e: Event, a: nat)
    requires Inv(w) && a in Step(w, e).db.exec.completions && a !in w.db.exec.completions
    ensures e == Executes(Complete(a, true)) && Live(w.db.exec, a, w.now)
  {
    if e.Executes? {
      if Tx(w, e).Ok? { ExecCompletes(w.db.exec, e.exec, w.now, a); }
    } else {
      ExecUntouched(w, e);
    }
  }

  /** A completion was brought by its own attempt, with evidence, while its lease was live. */
  lemma CompletionOrigin(now: int, events: seq<Event>, a: nat) returns (k: nat)
    requires a in Run(Boot(now), events).db.exec.completions
    ensures k < |events| && events[k] == Executes(Complete(a, true))
    ensures Live(Before(now, events, k).db.exec, a, Before(now, events, k).now)
  {
    k := FirstTime(now, events, (w: World) => a in w.db.exec.completions);
    BeforeInv(now, events, k);
    StepCompletes(Before(now, events, k), events[k], a);
  }

  /** A task has succeeded only if it was accepted, with evidence, while it awaited verification after its current attempt
      had completed, with evidence and under a live lease. */
  lemma SuccessOrigin(now: int, events: seq<Event>, t: nat) returns (k: nat, c: nat, a: nat)
    requires HasSucceeded(Run(Boot(now), events), t)
    ensures c < k < |events| && events[k] == Executes(Accept(t, true)) && events[c] == Executes(Complete(a, true))
    ensures
      var x := Before(now, events, k).db.exec;
      t < |x.tasks| && x.tasks[t].state == AwaitingVerification && x.tasks[t].current == Some(a)
      && a < |x.attempts| && x.attempts[a].task == t
    ensures Live(Before(now, events, c).db.exec, a, Before(now, events, c).now)
  {
    k := FirstTime(now, events, (w: World) => HasSucceeded(w, t));
    BeforeInv(now, events, k);
    var w := Before(now, events, k);
    StepSucceeds(w, events[k], t);
    assert TaskOk(w.db.exec, t);
    a := w.db.exec.tasks[t].current.value;
    c := CompletionOrigin(now, events[..k], a);
    assert events[..k][..c] == events[..c];
  }

  lemma StepStarts(w: World, e: Event, a: nat)
    requires Inv(w) && |w.db.exec.attempts| <= a < |Step(w, e).db.exec.attempts|
    ensures e.Executes? && e.exec.Start? && a == |w.db.exec.attempts|
    ensures StartAttempt(w.db.exec, e.exec.task, e.exec.kind, e.exec.duration, e.exec.began).Ok?
    ensures Step(w, e).db.exec == StartAttempt(w.db.exec, e.exec.task, e.exec.kind, e.exec.duration, e.exec.began).value
  {
    if e.Executes? {
      if Tx(w, e).Ok? { OnlyStartsAdd(w.db.exec, e.exec, w.now); }
    } else {
      ExecUntouched(w, e);
    }
  }

  lemma OnlyStartsAdd(x: Exec, e: ExecEvent, now: int)
    requires LeaseInv(x) && Apply(x, e, now).Ok? && |Apply(x, e, now).value.attempts| > |x.attempts|
    ensures e.Start? && |Apply(x, e, now).value.attempts| == |x.attempts| + 1
  {
  }

  /** Attempt a was leased by event k, as the next of a task that was eligible, under the fence after its last. */
  ghost predicate LeasedAt(now: int, events: seq<Event>, a: nat, final: Attempt, k: nat) {
    && k < |events| && events[k].Executes? && events[k].exec.Start?
    && var x, e := Before(now, events, k).db.exec, events[k].exec;
    && |x.attempts| == a && e.task < |x.tasks| && x.tasks[e.task].state == Eligible && e.kind != "" && e.duration > 0
    && final.task == e.task && final.kind == e.kind && final.fence == x.tasks[e.task].fence + 1
  }

  lemma AttemptOrigin(now: int, events: seq<Event>, a: nat) returns (k: nat)
    requires a < |Run(Boot(now), events).db.exec.attempts|
    ensures LeasedAt(now, events, a, Run(Boot(now), events).db.exec.attempts[a], k)
  {
    k := FirstTime(now, events, (w: World) => a < |w.db.exec.attempts|);
    var w, e, final := Before(now, events, k), events[k], Run(Boot(now), events);
    BeforeInv(now, events, k);
    StepStarts(w, e, a);
    StartLeaves(w.db.exec, e.exec.task, e.exec.kind, e.exec.duration, e.exec.began);
    AfterAdvances(now, events, k);
    assert AttemptAdvances(Step(w, e).db.exec.attempts[a], final.db.exec.attempts[a]);
  }

  lemma AfterAdvances(now: int, events: seq<Event>, k: nat)
    requires k < |events|
    ensures Inv(Step(Before(now, events, k), events[k]))
    ensures WorldAdvances(Step(Before(now, events, k), events[k]), Run(Boot(now), events))
  {
    BeforeInv(now, events, k + 1);
    RunSteps(Boot(now), events, k);
  }

  // ----- tasks -----

  lemma OnlyCreatesAdd(x: Exec, e: ExecEvent, now: int)
    requires LeaseInv(x) && Apply(x, e, now).Ok? && |Apply(x, e, now).value.tasks| > |x.tasks|
    ensures e.Create? && Grounded(x.tasks, e.spec)
  {
  }

  lemma StepCreates(w: World, e: Event, t: nat)
    requires Inv(w) && |w.db.exec.tasks| <= t < |Step(w, e).db.exec.tasks|
    ensures t == |w.db.exec.tasks| && e.Executes? && e.exec == Create(e.exec.spec, true, true)
    ensures Grounded(w.db.exec.tasks, e.exec.spec) && Step(w, e).db.exec.tasks[t].spec == e.exec.spec
    ensures e.exec.spec.key != "" ==> forall u | 0 <= u < |w.db.exec.tasks| :: w.db.exec.tasks[u].spec.key != e.exec.spec.key
  {
    if e.Executes? {
      if Tx(w, e).Ok? {
        OnlyCreatesAdd(w.db.exec, e.exec, w.now);
        CreateLeaves(w.db.exec, e.exec.spec, e.exec.guard, e.exec.purposeValid);
      }
    } else {
      ExecUntouched(w, e);
    }
  }

  /** Task t was created by event k, for a live caller and a valid purpose, under a key no task had, with what it asks for
      inside its authority and inside what its parent was granted. */
  ghost predicate CreatedAt(now: int, events: seq<Event>, t: nat, spec: TaskSpec, k: nat) {
    && k < |events| && events[k] == Executes(Create(spec, true, true))
    && var tasks := Before(now, events, k).db.exec.tasks;
    && t == |tasks| && spec.required <= spec.authority
    && (spec.earliest.Some? && spec.deadline.Some? ==> spec.earliest.value <= spec.deadline.value)
    && (spec.key != "" ==> forall u | 0 <= u < t :: tasks[u].spec.key != spec.key)
    && (spec.parent.Some? ==> spec.parent.value < t && Inside(tasks[spec.parent.value].spec, spec))
  }

  /** The child is granted no more than its parent, for the same purpose and on the same envelope. */
  ghost predicate Inside(parent: TaskSpec, child: TaskSpec) {
    && child.authority <= parent.authority && child.purpose == parent.purpose && child.envelope == parent.envelope
    && AtLeast(child.enforcement, parent.enforcement)
    && (parent.earliest.Some? ==> child.earliest.Some? && parent.earliest.value <= child.earliest.value)
    && (parent.deadline.Some? ==> child.deadline.Some? && child.deadline.value <= parent.deadline.value)
  }

  lemma TaskOrigin(now: int, events: seq<Event>, t: nat) returns (k: nat)
    requires t < |Run(Boot(now), events).db.exec.tasks|
    ensures CreatedAt(now, events, t, Run(Boot(now), events).db.exec.tasks[t].spec, k)
  {
    k := FirstTime(now, events, (w: World) => t < |w.db.exec.tasks|);
    var w, e, final := Before(now, events, k), events[k], Run(Boot(now), events);
    BeforeInv(now, events, k);
    StepCreates(w, e, t);
    AfterAdvances(now, events, k);
    assert TaskAdvances(Step(w, e).db.exec.tasks[t], final.db.exec.tasks[t]);
    if e.exec.spec.parent.Some? { RankOrder(w.db.exec.tasks[e.exec.spec.parent.value].spec.enforcement, e.exec.spec.enforcement); }
  }
}
