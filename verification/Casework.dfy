/** The case ledger and the Box together: over every joint run, a task made from a case's work is what the case asked
    for, and stays within what the case was granted. */
module Casework {
  import opened Domain
  import opened Strings
  import opened Execution
  import opened Staleness
  import opened Transactions
  import opened World
  import opened Runs
  import opened Cases
  import opened CaseRuns
  import opened Materialise

  datatype Joint = Joint(ledger: Ledger, world: World)

  /** A change of the ledger, an event of the Box, or the materialisation of a case as it was read some time before. */
  datatype JointEvent =
    | OnCases(change: CaseEvent)
    | OnBox(event: Event)
    | Makes(id: nat, seen: Case, template: TaskRequest, purpose: bool)

  function JointStep(j: Joint, e: JointEvent): Joint {
    match e
    case OnCases(change) => j.(ledger := CaseStep(j.ledger, change))
    case OnBox(event) => j.(world := Step(j.world, event))
    case Makes(id, seen, template, purpose) =>
      match SpecFor(seen, template)
      case Err(_) => j
      case Ok(spec) => j.(world := Step(j.world, Creation(spec, StillCurrent(j.ledger, id, seen), purpose)))
  }

  function JointRun(j: Joint, events: seq<JointEvent>): Joint {
    if events == [] then j else JointStep(JointRun(j, events[..|events| - 1]), events[|events| - 1])
  }

  /** The state after the first m events of a run from the empty tables. */
  function At(now: int, events: seq<JointEvent>, m: nat): Joint
    requires m <= |events|
  {
    JointRun(Joint(NO_CASES, Boot(now)), events[..m])
  }

  // ----- the runs meant -----

  /** Nobody else makes up a key of the form reserved for work. */
  ghost predicate KeepsOffWorkKeys(e: JointEvent) {
    e.OnBox? && e.event.Executes? && e.event.exec.Create? ==> forall n: nat :: e.event.exec.spec.key != WorkKey(n)
  }

  ghost predicate Read(now: int, events: seq<JointEvent>, m: nat, id: nat, c: Case) {
    && m <= |events| && id < |At(now, events, m).ledger.cases|
    && At(now, events, m).ledger.cases[id] == c && c.state == CaseActive
  }

  /** Whoever materialises a case has read it, active, at some earlier moment. */
  ghost predicate Proper(now: int, events: seq<JointEvent>) {
    forall k | 0 <= k < |events| ::
      KeepsOffWorkKeys(events[k])
      && (events[k].Makes? ==> exists m: nat :: m <= k && Read(now, events, m, events[k].id, events[k].seen))
  }

  // ----- joint runs are runs of both parts -----

  function Changes(events: seq<JointEvent>): seq<CaseEvent> {
    if events == [] then []
    else
      var last := events[|events| - 1];
      Changes(events[..|events| - 1]) + (if last.OnCases? then [last.change] else [])
  }

  lemma AtNext(now: int, events: seq<JointEvent>, k: nat)
    requires k < |events|
    ensures At(now, events, k + 1) == JointStep(At(now, events, k), events[k])
  {
    assert events[..k + 1][..k] == events[..k];
  }

  lemma JointStepKeeps(j: Joint, e: JointEvent)
    requires LedgerInv(j.ledger) && Inv(j.world)
    ensures LedgerInv(JointStep(j, e).ledger) && Inv(JointStep(j, e).world)
  {
    match e {
      case OnCases(change) => CaseStepKeeps(j.ledger, change);
      case OnBox(event) => StepKeepsInv(j.world, event);
      case Makes(id, seen, template, purpose) =>
        if SpecFor(seen, template).Ok? {
          StepKeepsInv(j.world, Creation(SpecFor(seen, template).value, StillCurrent(j.ledger, id, seen), purpose));
        }
    }
  }

  lemma {:induction false} JointKeeps(now: int, events: seq<JointEvent>, m: nat)
    requires m <= |events|
    ensures LedgerInv(At(now, events, m).ledger) && Inv(At(now, events, m).world)
  {
    if m == 0 {
      NoCasesInv();
      StartInv(now);
    } else {
      JointKeeps(now, events, m - 1);
      AtNext(now, events, m - 1);
      JointStepKeeps(At(now, events, m - 1), events[m - 1]);
    }
  }

  lemma {:induction false} LedgerRuns(j: Joint, events: seq<JointEvent>)
    ensures JointRun(j, events).ledger == CaseRun(j.ledger, Changes(events))
  {
    if events != [] {
      var n := |events| - 1;
      LedgerRuns(j, events[..n]);
      var before := Changes(events[..n]);
      if events[n].OnCases? {
        assert (before + [events[n].change])[..|before|] == before;
      } else {
        assert Changes(events) == before;
      }
    }
  }

  lemma {:induction false} ChangesConcat(a: seq<JointEvent>, b: seq<JointEvent>)
    ensures Changes(a + b) == Changes(a) + Changes(b)
  {
    if b == [] {
      assert a + b == a;
    } else {
      var n := |b| - 1;
      ChangesConcat(a, b[..n]);
      assert (a + b)[..|a| + n] == a + b[..n];
    }
  }

  lemma RunAndOn(l: Ledger, events: seq<JointEvent>, k: nat)
    requires k <= |events|
    ensures CaseRun(l, Changes(events)) == CaseRun(CaseRun(l, Changes(events[..k])), Changes(events[k..]))
  {
    assert events[..k] + events[k..] == events;
    ChangesConcat(events[..k], events[k..]);
    CaseRunConcat(l, Changes(events[..k]), Changes(events[k..]));
  }

  /** Between two moments of a run the ledger has gone through some changes of its own. */
  lemma ChangesBetween(now: int, events: seq<JointEvent>, l: nat, m: nat)
    requires l <= m <= |events|
    ensures At(now, events, m).ledger == CaseRun(At(now, events, l).ledger, Changes(events[l..m]))
    ensures LedgerAdvances(At(now, events, l).ledger, At(now, events, m).ledger)
  {
    JointKeeps(now, events, l);
    LedgerRuns(Joint(NO_CASES, Boot(now)), events[..l]);
    LedgerRuns(Joint(NO_CASES, Boot(now)), events[..m]);
    assert events[..m][..l] == events[..l] && events[..m][l..] == events[l..m];
    RunAndOn(NO_CASES, events[..m], l);
    CaseRunKeeps(At(now, events, l).ledger, Changes(events[l..m]));
  }

  // ----- tasks -----

  lemma OnlyCreationsAdd(w: World, e: Event)
    requires Inv(w) && Tx(w, e).Ok? && !(e.Executes? && e.exec.Create?)
    ensures |Tx(w, e).value.exec.tasks| == |w.db.exec.tasks|
  {
    if e.Prepares? { PrepareKeepsDb(e.registry, w.db, e.request, e.decision, e.began, w.now); }
  }

  /** After a step every task was there before, with the same specification, or is the one just created. */
  lemma StepTasks(w: World, e: Event, t: nat)
    requires Inv(w) && t < |Step(w, e).db.exec.tasks|
    ensures
      if t < |w.db.exec.tasks| then Step(w, e).db.exec.tasks[t].spec == w.db.exec.tasks[t].spec
      else e.Executes? && e.exec.Create? && Tx(w, e).Ok? && Step(w, e).db.exec.tasks[t].spec == e.exec.spec
  {
    StepKeepsInv(w, e);
    if t < |w.db.exec.tasks| {
      assert TaskAdvances(w.db.exec.tasks[t], Step(w, e).db.exec.tasks[t]);
    } else if !(e.Executes? && e.exec.Create?) {
      OnlyCreationsAdd(w, e);
    }
  }

  lemma TasksStay(j: Joint, e: JointEvent, t: nat)
    requires Inv(j.world) && t < |j.world.db.exec.tasks|
    ensures
      var tasks := JointStep(j, e).world.db.exec.tasks;
      t < |tasks| && tasks[t].spec == j.world.db.exec.tasks[t].spec
  {
    match e {
      case OnCases(_) =>
      case OnBox(event) =>
        StepKeepsInv(j.world, event);
        StepTasks(j.world, event, t);
      case Makes(id, seen, template, purpose) =>
        if SpecFor(seen, template).Ok? {
          var creation := Creation(SpecFor(seen, template).value, StillCurrent(j.ledger, id, seen), purpose);
          StepKeepsInv(j.world, creation);
          StepTasks(j.world, creation, t);
        }
    }
  }

  /** At moment m the case had this work. */
  ghost predicate Attached(now: int, events: seq<JointEvent>, n: nat, id: nat, m: nat) {
    && m <= |events| && id < |At(now, events, m).ledger.cases|
    && At(now, events, m).ledger.cases[id].current == Some(n)
  }

  /** The task embodies what the case asked for at that moment, when it was active, within the case's grant. */
  ghost predicate Made(now: int, events: seq<JointEvent>, spec: TaskSpec, id: nat, m: nat)
    requires m <= |events| && id < |At(now, events, m).ledger.cases|
  {
    var c := At(now, events, m).ledger.cases[id];
    c.state == CaseActive && Embodies(spec, c) && spec.authority <= Cleaned(c.request.grant.capabilities)
  }

  /** A task that a step adds under a work key was materialised, from the case that has the work then. */
  lemma JustMade(now: int, events: seq<JointEvent>, k: nat, t: nat, n: nat)
    requires k < |events| && Proper(now, events)
    requires |At(now, events, k).world.db.exec.tasks| <= t < |At(now, events, k + 1).world.db.exec.tasks|
    requires At(now, events, k + 1).world.db.exec.tasks[t].spec.key == WorkKey(n)
    ensures events[k].Makes?
    ensures Attached(now, events, n, events[k].id, k)
    ensures Made(now, events, At(now, events, k + 1).world.db.exec.tasks[t].spec, events[k].id, k)
  {
    var before, e := At(now, events, k), events[k];
    AtNext(now, events, k);
    JointKeeps(now, events, k);
    assert KeepsOffWorkKeys(e);
    if e.OnBox? { StepTasks(before.world, e.event, t); }
    assert e.Makes?;
    var m: nat :| m <= k && Read(now, events, m, e.id, e.seen);
    JointKeeps(now, events, m);
    ChangesBetween(now, events, m, k);
    var spec := SpecFor(e.seen, e.template).value;
    StepTasks(before.world, Creation(spec, StillCurrent(before.ledger, e.id, e.seen), e.purpose), t);
    MaterialiseIsStep(before.ledger, before.world, e.id, e.seen, e.template, e.purpose);
    MaterialisedWithinGrant(At(now, events, m).ledger, before.ledger, before.world.db.exec, e.id, e.template, e.purpose);
    WorkKeyInjective(n, before.ledger.cases[e.id].current.value);
  }

  lemma {:induction false} TaskMade(now: int, events: seq<JointEvent>, k: nat, t: nat, n: nat) returns (id: nat, m: nat)
    requires k <= |events| && Proper(now, events)
    requires t < |At(now, events, k).world.db.exec.tasks| && At(now, events, k).world.db.exec.tasks[t].spec.key == WorkKey(n)
    ensures Attached(now, events, n, id, m) && Made(now, events, At(now, events, k).world.db.exec.tasks[t].spec, id, m)
  {
    id, m := 0, 0;
    if k > 0 {
      var before, e := At(now, events, k - 1), events[k - 1];
      AtNext(now, events, k - 1);
      if t >= |before.world.db.exec.tasks| {
        JustMade(now, events, k - 1, t, n);
        id, m := e.id, k - 1;
      } else {
        JointKeeps(now, events, k - 1);
        TasksStay(before, e, t);
        id, m := TaskMade(now, events, k - 1, t, n);
      }
    }
  }

  /** A work is attached to one case only, and to one proposal. */
  lemma AttachedOnce(now: int, events: seq<JointEvent>, n: nat, a: nat, l: nat, b: nat, m: nat)
    requires Attached(now, events, n, a, l) && Attached(now, events, n, b, m)
    ensures a == b && At(now, events, l).ledger.cases[a] == At(now, events, m).ledger.cases[b]
  {
    JointKeeps(now, events, l);
    JointKeeps(now, events, m);
    if l <= m {
      ChangesBetween(now, events, l, m);
      WorkNeverReused(At(now, events, l).ledger, Changes(events[l..m]), a, b);
    } else {
      ChangesBetween(now, events, m, l);
      WorkNeverReused(At(now, events, m).ledger, Changes(events[m..l]), b, a);
    }
  }

  /** Over every such run: a task under a work key was made from a case that had this work; whenever any case has it,
      it is that case, active, and the task is what its proposal asks for; and the task's authority lies within the
      case's grant for good. */
  lemma TasksAreCasework(now: int, events: seq<JointEvent>, t: nat, n: nat) returns (id: nat)
    requires Proper(now, events)
    requires
      var tasks := At(now, events, |events|).world.db.exec.tasks;
      t < |tasks| && tasks[t].spec.key == WorkKey(n)
    ensures exists m :: Attached(now, events, n, id, m)
    ensures forall b, m | Attached(now, events, n, b, m) ::
      b == id && Made(now, events, At(now, events, |events|).world.db.exec.tasks[t].spec, id, m)
    ensures
      var end := At(now, events, |events|);
      id < |end.ledger.cases|
      && end.world.db.exec.tasks[t].spec.authority <= Cleaned(end.ledger.cases[id].request.grant.capabilities)
  {
    var spec := At(now, events, |events|).world.db.exec.tasks[t].spec;
    var l: nat;
    id, l := TaskMade(now, events, |events|, t, n);
    forall b, m | Attached(now, events, n, b, m) ensures b == id && Made(now, events, spec, id, m) {
      AttachedOnce(now, events, n, id, l, b, m);
    }
    ChangesBetween(now, events, l, |events|);
    assert CaseAdvances(At(now, events, l).ledger.cases[id], At(now, events, |events|).ledger.cases[id]);
  }
}
