/** Materialising work on the shared tables. */
module MaterialiseService {
  import opened Domain
  import opened Strings
  import opened Execution
  import opened World
  import opened Box
  import opened Cases
  import opened CaseService
  import opened Materialise
  import ExecutionService

  method HasCriterion(criteria: seq<string>) returns (ok: bool)
    ensures ok <==> exists v :: v in criteria && Trim(v) != ""
  {
    for i := 0 to |criteria|
      invariant forall j | 0 <= j < i :: Trim(criteria[j]) == ""
    {
      if Trim(criteria[i]) != "" {
        assert criteria[i] in criteria;
        return true;
      }
    }
    return false;
  }

  method PrepareTemplate(c: Case, template: TaskRequest) returns (r: Result<TaskRequest>)
    ensures r == TemplateFor(c, template)
  {
    var criterion := HasCriterion(template.criteria);
    if Trim(template.objective) == "" || !criterion || template.envelope.None? { return Err(Malformed); }
    var request := template;
    request := request.(purpose := Purpose(MISSION, c.request.mission));
    request := request.(taskClass := NextOf(c).kind);
    request := request.(required := NextOf(c).required);
    request := request.(authority := NextOf(c).authority);
    request := request.(key := KeyOf(c));
    return Ok(request);
  }

  /** Between w and v the task of case c's work was inserted or found, as t, in one step and nothing else happened. */
  ghost predicate Materialised(l: Ledger, w: World, v: World, id: nat, c: Case, template: TaskRequest, purpose: bool, t: nat) {
    && MaterialiseTx(l, w.db.exec, id, c, template, purpose) == Ok(v.db.exec)
    && v == Step(w, Creation(SpecFor(c, template).value, StillCurrent(l, id, c), purpose))
    && t == TaskId(w.db.exec.tasks, SpecFor(c, template).value)
  }

  lemma InOneStep(l: Ledger, w: World, v: World, id: nat, c: Case, template: TaskRequest, purpose: bool)
    requires MaterialiseTx(l, w.db.exec, id, c, template, purpose) == Ok(v.db.exec) && v == w.(db := w.db.(exec := v.db.exec))
    ensures Materialised(l, w, v, id, c, template, purpose, TaskId(w.db.exec.tasks, SpecFor(c, template).value))
  {
    MaterialiseIsStep(l, w, id, c, template, purpose);
  }

  /** The insertion, guarded by the state of the case inside the same transaction. */
  method InsertInTx(cases: CaseStore, box: Box, id: nat, c: Case, template: TaskRequest, purpose: bool) returns (r: Result<nat>)
    modifies box`tasks
    ensures match MaterialiseTx(cases.State(), old(box.Work()), id, c, template, purpose)
            case Ok(work) => r == Ok(TaskId(old(box.tasks), SpecFor(c, template).value)) && box.Work() == work
            case Err(e) => r == Err(e)
  {
    var request := PrepareTemplate(c, template);
    if request.Err? { return Err(request.error); }
    var spec := ExecutionService.NormaliseRoot(request.value);
    if spec.Err? { return Err(spec.error); }
    r := ExecutionService.InsertTaskInTx(box, spec.value, StillCurrent(cases.State(), id, c), purpose);
  }

  /** The transaction: the task of the case's work, or nothing. */
  method InsertOrRollback(cases: CaseStore, box: Box, id: nat, c: Case, template: TaskRequest, purpose: bool) returns (r: Result<nat>)
    modifies box
    ensures r.Ok? ==> Materialised(cases.State(), old(box.State()), box.State(), id, c, template, purpose, r.value)
    ensures r.Err? ==> box.State() == old(box.State()) && MaterialiseTx(cases.State(), old(box.Work()), id, c, template, purpose) == Err(r.error)
  {
    var saved := box.Data();
    ghost var before := box.State();
    r := InsertInTx(cases, box, id, c, template, purpose);
    if r.Err? {
      box.Rollback(saved);
    } else {
      InOneStep(cases.State(), before, box.State(), id, c, template, purpose);
    }
  }

  /** Reads the case, lets others act on both sets of tables, and inserts: the stale copy decides what the task would
      be, the ledger of the moment decides whether it may be. */
  method MaterialiseTask(cases: CaseStore, box: Box, id: nat, work: nat, template: TaskRequest, purpose: bool,
                         others: seq<CaseEvent>, elsewhere: seq<Event>) returns (r: Result<nat>)
    modifies cases, box
    ensures r.Ok? ==>
      && cases.State() == CaseRun(old(cases.State()), others)
      && id < |old(cases.cases)| && old(cases.cases)[id].state == CaseActive && old(cases.cases)[id].current == Some(work)
      && Materialised(cases.State(), Run(old(box.State()), elsewhere), box.State(), id, old(cases.cases)[id], template, purpose, r.value)
    ensures
      if id < |old(cases.cases)| && old(cases.cases)[id].state == CaseActive && old(cases.cases)[id].current == Some(work) then
        var tx := MaterialiseTx(CaseRun(old(cases.State()), others), Run(old(box.State()), elsewhere).db.exec, id, old(cases.cases)[id], template, purpose);
        && cases.State() == CaseRun(old(cases.State()), others)
        && (r.Ok? <==> tx.Ok?) && (tx.Err? ==> r == Err(tx.error) && box.State() == Run(old(box.State()), elsewhere))
      else r.Err? && cases.State() == old(cases.State()) && box.State() == old(box.State())
  {
    if id >= |cases.cases| { return Err(NotFound); }
    var c := cases.cases[id];
    if c.state != CaseActive || c.current != Some(work) { return Err(WrongState); }
    cases.Others(others);
    box.Others(elsewhere);
    r := InsertOrRollback(cases, box, id, c, template, purpose);
  }

  /** Case and first task together, or neither. */
  method EnsureAndMaterialise(cases: CaseStore, box: Box, o: Observation, template: TaskRequest, purpose: bool)
    returns (r: Result<(nat, nat)>)
    modifies cases, box
    ensures r.Err? ==> cases.State() == old(cases.State()) && box.State() == old(box.State())
    ensures
      match Ensure(old(cases.State()), o, purpose)
      case Err(e) => r == Err(e)
      case Ok(l) =>
        var id := CaseId(old(cases.State()), o);
        id < |l.cases| && match MaterialiseTx(l, old(box.Work()), id, l.cases[id], template, purpose)
                          case Err(e) => r == Err(e)
                          case Ok(_) => r.Ok?
    ensures r.Ok? ==>
      && Ensure(old(cases.State()), o, purpose) == Ok(cases.State())
      && r.value.0 == CaseId(old(cases.State()), o) < |cases.cases|
      && Materialised(cases.State(), old(box.State()), box.State(), r.value.0, cases.cases[r.value.0], template, purpose, r.value.1)
  {
    var ledger := cases.State();
    var id := cases.Observe(o, purpose);
    if id.Err? { return Err(id.error); }
    EnsuredCase(ledger, o, purpose);
    var c := cases.cases[id.value];
    var task := InsertOrRollback(cases, box, id.value, c, template, purpose);
    if task.Err? {
      cases.Rollback(ledger);
      return Err(task.error);
    }
    return Ok((id.value, task.value));
  }

  lemma EnsuredCase(l: Ledger, o: Observation, purpose: bool)
    requires Ensure(l, o, purpose).Ok?
    ensures CaseId(l, o) < |Ensure(l, o, purpose).value.cases|
  {
  }
}
