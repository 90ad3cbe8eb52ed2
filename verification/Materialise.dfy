/** Turning a case's current work into a task. The case is read before the transaction, so what matters is that the
    guard inside it makes the stale copy good. */
module Materialise {
  import opened Domain
  import opened Strings
  import opened Decimals
  import opened Execution
  import opened Requests
  import opened Endings
  import opened Delegation
  import opened Cases
  import opened CaseRuns
  import opened Leases
  import opened World

  function WorkKey(work: nat): string {
    "work_" + Decimal(work)
  }

  const MISSION := "MISSION"

  const NO_WORK: Proposal := Proposal("", [], [], [])

  function NextOf(c: Case): Proposal {
    if c.next.Some? then c.next.value else NO_WORK
  }

  function KeyOf(c: Case): string {
    if c.current.Some? then WorkKey(c.current.value) else ""
  }

  /** The task request for the case's current work: what the work is and may use comes from the case alone. */
  function TemplateFor(c: Case, template: TaskRequest): Result<TaskRequest> {
    if Trim(template.objective) == "" || !(exists v :: v in template.criteria && Trim(v) != "") || template.envelope.None?
    then Err(Malformed)
    else
      Ok(template.(purpose := Purpose(MISSION, c.request.mission), taskClass := NextOf(c).kind,
                   required := NextOf(c).required, authority := NextOf(c).authority, key := KeyOf(c)))
  }

  /** The check inside the transaction: the case still has this very work. */
  predicate StillCurrent(l: Ledger, id: nat, c: Case) {
    && id < |l.cases| && l.cases[id].request.mission == c.request.mission
    && l.cases[id].state == CaseActive && l.cases[id].current == c.current
  }

  function SpecFor(c: Case, template: TaskRequest): Result<TaskSpec> {
    match TemplateFor(c, template)
    case Err(e) => Err(e)
    case Ok(request) => RootSpec(request)
  }

  function MaterialiseTx(l: Ledger, x: Exec, id: nat, c: Case, template: TaskRequest, purpose: bool): Result<Exec> {
    match SpecFor(c, template)
    case Err(e) => Err(e)
    case Ok(spec) => InsertTask(x, spec, StillCurrent(l, id, c), purpose)
  }

  /** The event of the Box that inserts a task of this specification. */
  function Creation(spec: TaskSpec, guard: bool, purpose: bool): Event {
    Executes(Create(spec, guard, purpose))
  }

  /** A materialisation is a step of the Box: whatever holds of its runs holds of materialised tasks. */
  lemma MaterialiseIsStep(l: Ledger, w: World, id: nat, c: Case, template: TaskRequest, purpose: bool)
    requires SpecFor(c, template).Ok?
    ensures
      var e := Creation(SpecFor(c, template).value, StillCurrent(l, id, c), purpose);
      match MaterialiseTx(l, w.db.exec, id, c, template, purpose)
      case Ok(x) => Tx(w, e) == Ok(w.db.(exec := x)) && Step(w, e) == w.(db := w.db.(exec := x))
      case Err(error) => Tx(w, e) == Err(error) && Step(w, e) == w
  {
    RootGrounded(w.db.exec.tasks, TemplateFor(c, template).value);
  }

  lemma WorkKeyTight(work: nat)
    ensures Trim(WorkKey(work)) == WorkKey(work) != ""
  {
    var key, digits := WorkKey(work), Decimal(work);
    assert key[|key| - 1] == digits[|digits| - 1];
    assert digits[|digits| - 1] in digits;
    PrintingEnds(key);
  }

  lemma WorkKeyInjective(a: nat, b: nat)
    requires WorkKey(a) == WorkKey(b)
    ensures a == b
  {
    SuffixInjective("work_", a, b);
  }

  lemma CleanedWithin(a: seq<string>, b: seq<string>)
    requires Within(a, b)
    ensures Cleaned(a) <= Cleaned(b)
  {
  }

  /** The task is exactly the proposal: class, required capabilities and authority, up to trimming. */
  ghost predicate Embodies(spec: TaskSpec, c: Case) {
    && c.current.Some? && c.next.Some?
    && spec.key == WorkKey(c.current.value)
    && spec.taskClass == Trim(c.next.value.kind)
    && spec.required == Cleaned(c.next.value.required)
    && spec.authority == Cleaned(c.next.value.authority)
    && spec.purpose == Purpose(MISSION, c.request.mission) && spec.parent.None?
  }

  lemma SpecEmbodies(c: Case, template: TaskRequest)
    requires c.current.Some? && c.next.Some? && Contained(c.next.value, c.request.grant)
    requires SpecFor(c, template).Ok?
    ensures Embodies(SpecFor(c, template).value, c)
  {
    WorkKeyTight(c.current.value);
    CleanedWithin(c.next.value.required, c.next.value.authority);
  }

  /** What the template has to bring: an objective, a criterion, an envelope, a known level of enforcement or none, and a
      window that opens. The rest of the task is the work's own, except what the template says of its payload, criteria,
      envelope, priority and window. */
  lemma SpecWhen(c: Case, template: TaskRequest)
    requires c.next.Some?
    ensures SpecFor(c, template).Ok? <==>
      && Trim(template.objective) != "" && (exists k :: 0 <= k < |template.criteria| && Trim(template.criteria[k]) != "")
      && template.envelope.Some? && (template.enforcement == Unrecognised("") || Recognised(template.enforcement))
      && Opens(template.earliest, template.deadline)
      && (NamesNothing(c.next.value.authority)
          || forall v | Names(c.next.value.required, v) :: Names(c.next.value.authority, v))
    ensures SpecFor(c, template).Ok? ==>
      var spec := SpecFor(c, template).value;
      && spec.objective == Trim(template.objective) && spec.criteria == Criteria(template.criteria)
      && spec.payload == (if Trim(template.payload) == "" then "{}" else template.payload)
      && Some(spec.envelope) == template.envelope && spec.priority == template.priority
      && spec.enforcement == (if template.enforcement == Unrecognised("") then Unenforced else template.enforcement)
      && spec.earliest == template.earliest && spec.deadline == template.deadline
  {
    if TemplateFor(c, template).Ok? { RootMeans(TemplateFor(c, template).value); }
    assert forall k | 0 <= k < |template.criteria| :: template.criteria[k] in template.criteria;
  }

  /** A task is made, or found, only while its case is active and still has this very work and mission; a new one only for
      a valid purpose, and one that is there only if it is the same in every column. */
  lemma MaterialiseWhen(l: Ledger, x: Exec, id: nat, c: Case, template: TaskRequest, purpose: bool)
    ensures MaterialiseTx(l, x, id, c, template, purpose).Ok? <==>
      && SpecFor(c, template).Ok?
      && id < |l.cases| && l.cases[id].state == CaseActive && l.cases[id].current == c.current
      && l.cases[id].request.mission == c.request.mission
      && var spec := SpecFor(c, template).value;
      if spec.key != "" && exists t :: 0 <= t < |x.tasks| && x.tasks[t].spec.key == spec.key
      then TaskId(x.tasks, spec) < |x.tasks| && x.tasks[TaskId(x.tasks, spec)].spec == spec else purpose
  {
    if SpecFor(c, template).Ok? { CreateLeaves(x, SpecFor(c, template).value, StillCurrent(l, id, c), purpose); }
  }

  /** The case was read from an earlier ledger; by the time of the transaction others may have changed anything. If
      it commits, the proposal it embodies is the one attached to that work now, while the case is active, and the
      task stays within the case's grant up to trimming. */
  lemma MaterialisedWithinGrant(seen: Ledger, l: Ledger, x: Exec, id: nat, template: TaskRequest, purpose: bool)
    requires LedgerInv(seen) && LedgerInv(l) && LedgerAdvances(seen, l) && id < |seen.cases|
    requires seen.cases[id].state == CaseActive
    requires MaterialiseTx(l, x, id, seen.cases[id], template, purpose).Ok?
    ensures id < |l.cases| && l.cases[id].state == CaseActive && l.cases[id].current == seen.cases[id].current
    ensures
      var y, spec := MaterialiseTx(l, x, id, seen.cases[id], template, purpose).value, SpecFor(seen.cases[id], template).value;
      var t := TaskId(x.tasks, spec);
      && t < |y.tasks| && y.tasks[t].spec == spec && Embodies(spec, l.cases[id])
      && spec.authority <= Cleaned(l.cases[id].request.grant.capabilities)
  {
    assert CaseOk(seen, id) && CaseOk(l, id);
    assert CaseAdvances(seen.cases[id], l.cases[id]);
    SpecEmbodies(seen.cases[id], template);
    CleanedWithin(l.cases[id].next.value.authority, l.cases[id].request.grant.capabilities);
  }

  /** Tasks and works go together one to one: two tasks made from work are the same task exactly if it is the same
      work. */
  lemma OneTaskPerWork(tasks: seq<Task>, s: nat, t: nat, a: nat, b: nat)
    requires SpecInv(tasks) && s < |tasks| && t < |tasks|
    requires tasks[s].spec.key == WorkKey(a) && tasks[t].spec.key == WorkKey(b)
    ensures s == t <==> a == b
  {
    WorkKeyTight(a);
    if s == t { WorkKeyInjective(a, b); }
  }

  /** Materialising the same work again, whenever and by whomever, finds the task that is there and adds none: it
      succeeds only with the same specification. */
  lemma MaterialiseReplays(l: Ledger, x: Exec, id: nat, c: Case, template: TaskRequest, purpose: bool, t: nat)
    requires SpecInv(x.tasks) && t < |x.tasks| && c.current.Some? && x.tasks[t].spec.key == KeyOf(c)
    requires MaterialiseTx(l, x, id, c, template, purpose).Ok?
    ensures MaterialiseTx(l, x, id, c, template, purpose) == Ok(x)
    ensures TaskId(x.tasks, SpecFor(c, template).value) == t && x.tasks[t].spec == SpecFor(c, template).value
  {
    WorkKeyTight(c.current.value);
    var spec := SpecFor(c, template).value;
    var found := FindKey(x.tasks, spec.key);
    assert found.Some?;
    OneTaskPerWork(x.tasks, found.value, t, c.current.value, c.current.value);
  }

  lemma HeldOnce(l: Ledger, a: nat, b: nat)
    requires LedgerInv(l) && a < |l.cases| && b < |l.cases| && l.cases[a].current.Some? && l.cases[b].current == l.cases[a].current
    ensures a == b
  {
    assert a < b ==> Apart(l.cases[a], l.cases[b]);
    assert b < a ==> Apart(l.cases[b], l.cases[a]);
  }

  /** A work identifier never passes to another case or another proposal: while a case holds it the proposal is the
      same, and once given up it is never held again. */
  lemma WorkNeverReused(l: Ledger, events: seq<CaseEvent>, a: nat, b: nat)
    requires LedgerInv(l) && a < |l.cases| && l.cases[a].current.Some?
    requires b < |CaseRun(l, events).cases| && CaseRun(l, events).cases[b].current == l.cases[a].current
    ensures a == b && CaseRun(l, events).cases[b] == l.cases[a]
  {
    var m := CaseRun(l, events);
    CaseRunKeeps(l, events);
    assert CaseOk(l, a);
    NewWorksAreFresh(l, events, b);
    if b < |l.cases| {
      HeldOnce(l, a, b) by { assert m.cases[b].current == l.cases[b].current; }
      assert CaseAdvances(l.cases[a], m.cases[a]);
    }
  }

  /** A case opened later starts with a work identifier no earlier case has had. */
  lemma {:induction false} NewWorksAreFresh(l: Ledger, events: seq<CaseEvent>, b: nat)
    requires LedgerInv(l) && b < |CaseRun(l, events).cases|
    ensures |l.cases| <= b && CaseRun(l, events).cases[b].current.Some? ==> l.works <= CaseRun(l, events).cases[b].current.value
  {
    if events != [] && |l.cases| <= b {
      var n := |events| - 1;
      var before, after := CaseRun(l, events[..n]), CaseRun(l, events);
      CaseRunKeeps(l, events[..n]);
      CaseStepKeeps(before, events[n]);
      if b < |before.cases| {
        NewWorksAreFresh(l, events[..n], b);
      } else {
        OpensWithFresh(before, events[n], b);
      }
    }
  }

  lemma OpensWithFresh(l: Ledger, e: CaseEvent, b: nat)
    requires |l.cases| <= b < |CaseStep(l, e).cases|
    ensures CaseStep(l, e).cases[b].current == Some(l.works)
  {
  }
}
