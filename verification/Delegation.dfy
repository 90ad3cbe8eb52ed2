/** Child tasks never exceed their ancestors, and an idempotency key names one task. */
module Delegation {
  import opened Execution
  import opened Leases
  import opened Staleness

  ghost predicate SpecOk(tasks: seq<Task>, t: nat)
    requires t < |tasks|
  {
    var spec := tasks[t].spec;
    && spec.required <= spec.authority
    && WindowOk(spec.earliest, spec.deadline)
    && (spec.parent.Some? ==> spec.parent.value < t && Attenuates(tasks[spec.parent.value].spec, spec))
  }

  ghost predicate SpecInv(tasks: seq<Task>) {
    && (forall t | 0 <= t < |tasks| :: SpecOk(tasks, t))
    && (forall s, t | 0 <= s < t < |tasks| && tasks[t].spec.key != "" :: tasks[s].spec.key != tasks[t].spec.key)
  }

  lemma InsertKeepsSpecs(x: Exec, spec: TaskSpec, guard: bool, purposeValid: bool)
    requires SpecInv(x.tasks) && Grounded(x.tasks, spec) && InsertTask(x, spec, guard, purposeValid).Ok?
    ensures SpecInv(InsertTask(x, spec, guard, purposeValid).value.tasks)
  {
    var tasks := InsertTask(x, spec, guard, purposeValid).value.tasks;
    forall t: nat | t < |tasks| ensures SpecOk(tasks, t) {
      if t < |x.tasks| { assert SpecOk(x.tasks, t); }
    }
  }

  lemma ApplyKeepsSpecs(x: Exec, e: ExecEvent, now: int)
    requires SpecInv(x.tasks) && Apply(x, e, now).Ok?
    ensures SpecInv(Apply(x, e, now).value.tasks)
  {
    if e.Create? {
      InsertKeepsSpecs(x, e.spec, e.guard, e.purposeValid);
    } else {
      var tasks := Apply(x, e, now).value.tasks;
      forall t: nat | t < |x.tasks| ensures t < |tasks| && tasks[t].spec == x.tasks[t].spec {
        TaskMoves(x, e, now, t);
      }
      forall t: nat | t < |tasks| ensures SpecOk(tasks, t) { assert SpecOk(x.tasks, t); }
    }
  }

  /** Task a lies on the chain of parents above task d. */
  predicate Ancestor(tasks: seq<Task>, a: nat, d: nat)
    decreases d
  {
    d < |tasks| && tasks[d].spec.parent.Some? && tasks[d].spec.parent.value < d
    && (tasks[d].spec.parent.value == a || Ancestor(tasks, a, tasks[d].spec.parent.value))
  }

  /** Attenuation holds between any two generations. */
  lemma {:induction false} DelegationAttenuates(tasks: seq<Task>, a: nat, d: nat)
    requires SpecInv(tasks) && Ancestor(tasks, a, d)
    ensures a < d && Attenuates(tasks[a].spec, tasks[d].spec)
    decreases d
  {
    assert SpecOk(tasks, d);
    var p := tasks[d].spec.parent.value;
    if p != a { DelegationAttenuates(tasks, a, p); }
  }

  /** Following parents upward ends at a root, so every task is a root or has an ancestor that is one. */
  lemma {:induction false} RootAbove(tasks: seq<Task>, d: nat) returns (root: nat)
    requires SpecInv(tasks) && d < |tasks|
    ensures root < |tasks| && tasks[root].spec.parent.None?
    ensures root == d || Ancestor(tasks, root, d)
    decreases d
  {
    assert SpecOk(tasks, d);
    if tasks[d].spec.parent.None? { root := d; } else { root := RootAbove(tasks, tasks[d].spec.parent.value); }
  }
}
