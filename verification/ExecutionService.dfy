/** Creating tasks, leasing them to attempts, and ending attempts, in place. Every transaction either commits its
    whole effect or leaves the tables as they were. */
module ExecutionService {
  import opened Domain
  import opened Strings
  import opened Execution
  import opened Leases
  import opened World
  import opened Box

  // ----- request normalisation -----

  method NormaliseCriteria(values: seq<string>) returns (out: seq<string>)
    ensures out == Criteria(values)
  {
    out := [];
    for i := 0 to |values|
      invariant out == Criteria(values[..i])
    {
      var value := Trim(values[i]);
      assert values[..i + 1][..i] == values[..i];
      if value != "" { out := out + [value]; }
    }
    assert values[..|values|] == values;
  }

  method ContainsAll(values: seq<string>, allowed: set<string>) returns (ok: bool)
    ensures ok <==> forall v | v in values :: v in allowed
  {
    for i := 0 to |values|
      invariant forall j | 0 <= j < i :: values[j] in allowed
    {
      if values[i] !in allowed { return false; }
    }
    return true;
  }

  method NormaliseRoot(r: TaskRequest) returns (spec: Result<TaskSpec>)
    ensures spec == RootSpec(r)
  {
    var criteria := NormaliseCriteria(r.criteria);
    if criteria == [] { return Err(Malformed); }
    var required := Normalise(r.required);
    var enforcement := if r.enforcement == Unrecognised("") then Unenforced else r.enforcement;
    if enforcement.Unrecognised? { return Err(Malformed); }
    if r.envelope.None? { return Err(Malformed); }
    var authority := Normalise(r.authority);
    if authority == [] {
      assert Cleaned(r.authority) == {};
      authority := required;
    } else {
      assert authority[0] in Cleaned(r.authority);
    }
    var within := ContainsAll(required, Members(authority));
    if !within { return Err(Malformed); }
    if !WindowOk(r.earliest, r.deadline) { return Err(Malformed); }
    assert Members(required) == Cleaned(r.required);
    return Ok(TaskSpec(None, r.purpose, Trim(r.taskClass), Trim(r.objective), Payload(r.payload), Trim(r.key), criteria,
                       Members(required), enforcement, Members(authority), r.envelope.value, r.priority,
                       r.earliest, r.deadline));
  }

  /** What a child requires and may use, checked against its parent. */
  method NormaliseAuthority(parent: TaskSpec, r: TaskRequest) returns (required: set<string>, authority: set<string>, ok: bool)
    ensures ok <==> ChildDraft(0, parent, r).required <= parent.authority
                    && ChildDraft(0, parent, r).authority <= parent.authority
                    && ChildDraft(0, parent, r).required <= ChildDraft(0, parent, r).authority
    ensures ok ==> required == ChildDraft(0, parent, r).required && authority == ChildDraft(0, parent, r).authority
  {
    var listed := Normalise(r.required);
    required, authority := Members(listed), parent.authority;
    ok := ContainsAll(listed, parent.authority);
    if !ok { return; }
    if r.authority != [] {
      var own := Normalise(r.authority);
      authority := Members(own);
      ok := ContainsAll(own, parent.authority);
      if !ok { return; }
    }
    ok := ContainsAll(listed, authority);
  }

  method NormaliseWindow(parent: TaskSpec, r: TaskRequest) returns (earliest: Option<int>, deadline: Option<int>, ok: bool)
    ensures earliest == ChildDraft(0, parent, r).earliest && deadline == ChildDraft(0, parent, r).deadline
    ensures ok <==> (parent.earliest.Some? && earliest.Some? ==> parent.earliest.value <= earliest.value)
                    && (parent.deadline.Some? && deadline.Some? ==> deadline.value <= parent.deadline.value)
                    && WindowOk(earliest, deadline)
  {
    ok := true;
    earliest, deadline := r.earliest, r.deadline;
    if earliest.None? { earliest := parent.earliest; }
    else if parent.earliest.Some? && earliest.value < parent.earliest.value { ok := false; }
    if deadline.None? { deadline := parent.deadline; }
    else if parent.deadline.Some? && parent.deadline.value < deadline.value { ok := false; }
    if !WindowOk(earliest, deadline) { ok := false; }
  }

  method NormaliseChild(parentId: nat, parent: TaskSpec, r: TaskRequest) returns (spec: Result<TaskSpec>)
    ensures spec == ChildSpec(parentId, parent, r)
  {
    var purpose := r.purpose;
    if purpose == Purpose("", "") { purpose := parent.purpose; }
    else if purpose != parent.purpose { return Err(Exceeds); }
    var taskClass := Trim(r.taskClass);
    if taskClass == "" { taskClass := parent.taskClass; }
    var required, authority, ok := NormaliseAuthority(parent, r);
    if !ok { return Err(Exceeds); }
    if r.envelope.Some? && r.envelope.value != parent.envelope { return Err(Exceeds); }
    var enforcement := r.enforcement;
    if enforcement == Unrecognised("") { enforcement := parent.enforcement; }
    else if enforcement.Unrecognised? || enforcement.Rank() < parent.enforcement.Rank() { return Err(Exceeds); }
    var criteria := NormaliseCriteria(r.criteria);
    if criteria == [] { return Err(Exceeds); }
    var earliest, deadline, fits := NormaliseWindow(parent, r);
    if !fits { return Err(Exceeds); }
    var priority := if r.priority == 0 then parent.priority else r.priority;
    return Ok(TaskSpec(Some(parentId), purpose, taskClass, Trim(r.objective), Payload(r.payload), Trim(r.key), criteria,
                       required, enforcement, authority, parent.envelope, priority, earliest, deadline));
  }

  // ----- inserting tasks -----

  /** Inserts or replays; a purpose found invalid after the insertion fails the call, and the caller rolls back. */
  method InsertTaskInTx(tx: Box, spec: TaskSpec, guard: bool, purposeValid: bool) returns (r: Result<nat>)
    modifies tx`tasks
    ensures match InsertTask(old(tx.Work()), spec, guard, purposeValid)
            case Ok(work) => r == Ok(TaskId(old(tx.tasks), spec)) && tx.Work() == work
            case Err(e) => r == Err(e)
  {
    if !guard { return Err(WrongState); }
    var existing := if spec.key == "" then None else FindKey(tx.tasks, spec.key);
    if existing.None? {
      var id := |tx.tasks|;
      tx.tasks := tx.tasks + [Task(spec, Eligible, None, 0)];
      return if purposeValid then Ok(id) else Err(InvalidPurpose);
    }
    return if tx.tasks[existing.value].spec == spec then Ok(existing.value) else Err(Conflict);
  }

  method CreateTask(box: Box, request: TaskRequest, guard: bool, purposeValid: bool) returns (r: Result<nat>)
    modifies box
    ensures box.State() == old(box.State()).(db := box.Data())
    ensures match RootSpec(request)
            case Err(e) => r == Err(e) && box.Data() == old(box.Data())
            case Ok(spec) =>
              match InsertTask(old(box.Work()), spec, guard, purposeValid)
              case Ok(work) => r == Ok(TaskId(old(box.tasks), spec)) && box.Data() == old(box.Data()).(exec := work)
              case Err(e) => r == Err(e) && box.Data() == old(box.Data())
    ensures RootSpec(request).Ok? ==>
              box.State() == Step(old(box.State()), Executes(Create(RootSpec(request).value, guard, purposeValid)))
  {
    var spec := NormaliseRoot(request);
    if spec.Err? { return Err(spec.error); }
    RootGrounded(box.tasks, request);
    var saved := box.Data();
    r := InsertTaskInTx(box, spec.value, guard, purposeValid);
    if r.Err? { box.Rollback(saved); }
  }

  method CreateChildTask(box: Box, parent: nat, request: TaskRequest, purposeValid: bool) returns (r: Result<nat>)
    modifies box
    ensures box.State() == old(box.State()).(db := box.Data())
    ensures parent >= old(|box.tasks|) ==> r == Err(NotFound) && box.Data() == old(box.Data())
    ensures parent < old(|box.tasks|) ==>
              match ChildSpec(parent, old(box.tasks[parent].spec), request)
              case Err(e) => r == Err(e) && box.Data() == old(box.Data())
              case Ok(spec) =>
                match InsertTask(old(box.Work()), spec, true, purposeValid)
                case Ok(work) => r == Ok(TaskId(old(box.tasks), spec)) && box.Data() == old(box.Data()).(exec := work)
                case Err(e) => r == Err(e) && box.Data() == old(box.Data())
    ensures parent < old(|box.tasks|) && ChildSpec(parent, old(box.tasks[parent].spec), request).Ok? ==>
              box.State() == Step(old(box.State()),
                                  Executes(Create(ChildSpec(parent, old(box.tasks[parent].spec), request).value, true, purposeValid)))
  {
    if parent >= |box.tasks| { return Err(NotFound); }
    var spec := NormaliseChild(parent, box.tasks[parent].spec, request);
    if spec.Err? { return Err(spec.error); }
    ChildGrounded(box.tasks, parent, request);
    var saved := box.Data();
    r := InsertTaskInTx(box, spec.value, true, purposeValid);
    if r.Err? { box.Rollback(saved); }
  }

  // ----- attempts -----

  method SetTaskState(tx: Box, t: nat, state: TaskState)
    requires t < |tx.tasks|
    modifies tx`tasks
    ensures tx.Work() == WithTask(old(tx.Work()), t, state)
  {
    tx.tasks := tx.tasks[t := tx.tasks[t].(state := state)];
  }

  method EndAttempt(tx: Box, a: nat, state: AttemptState, lease: LeaseState)
    requires a < |tx.attempts|
    modifies tx`attempts
    ensures tx.Work() == WithAttempt(old(tx.Work()), a, state, lease)
  {
    tx.attempts := tx.attempts[a := tx.attempts[a].(state := state, lease := lease)];
  }

  method Lease(box: Box, t: nat, kind: string, duration: int, began: int) returns (r: Result<nat>)
    modifies box`tasks, box`attempts
    ensures match StartAttempt(old(box.Work()), t, kind, duration, began)
            case Ok(work) => r == Ok(old(|box.attempts|)) && box.Work() == work
            case Err(e) => r == Err(e) && box.Work() == old(box.Work())
  {
    if kind == "" || duration <= 0 { return Err(Malformed); }
    if t >= |box.tasks| { return Err(NotFound); }
    var task := box.tasks[t];
    if task.state != Eligible { return Err(WrongState); }
    var a := |box.attempts|;
    box.attempts := box.attempts + [Attempt(t, Leased, task.fence + 1, Active, began + duration, kind)];
    box.tasks := box.tasks[t := task.(state := Executing, current := Some(a), fence := task.fence + 1)];
    return Ok(a);
  }

  method Renew(box: Box, a: nat, duration: int) returns (r: Result<()>)
    modifies box`attempts
    ensures match RenewLease(old(box.Work()), a, duration, box.now)
            case Ok(work) => r == Ok(()) && box.Work() == work
            case Err(e) => r == Err(e) && box.Work() == old(box.Work())
  {
    if duration <= 0 { return Err(Malformed); }
    var _ :- Guard(box.Work(), a, box.now);
    if box.attempts[a].lease == Active {
      box.attempts := box.attempts[a := box.attempts[a].(expires := box.now + duration)];
    }
    return Ok(());
  }

  method Revoke(box: Box, a: nat) returns (r: Result<()>)
    modifies box`tasks, box`attempts
    ensures match RevokeLease(old(box.Work()), a)
            case Ok(work) => r == Ok(()) && box.Work() == work
            case Err(e) => r == Err(e) && box.Work() == old(box.Work())
  {
    if a >= |box.attempts| || box.attempts[a].task >= |box.tasks| { return Err(StaleAttempt); }
    if box.attempts[a].lease != Active { return Ok(()); }
    var t := box.attempts[a].task;
    EndAttempt(box, a, AttemptCancelled, Revoked);
    if box.tasks[t].current == Some(a) && box.tasks[t].state == Executing { SetTaskState(box, t, Eligible); }
    return Ok(());
  }

  method Fail(box: Box, a: nat, signature: string) returns (r: Result<()>)
    modifies box`tasks, box`attempts, box`failures
    ensures match FailAttempt(old(box.Work()), a, signature, box.now)
            case Ok(work) => r == Ok(()) && box.Work() == work
            case Err(e) => r == Err(e) && box.Work() == old(box.Work())
  {
    if signature == "" { return Err(Malformed); }
    var t :- Guard(box.Work(), a, box.now);
    box.failures := box.failures + [Failure(t, a, signature)];
    var repeats := CountFailures(box, t, signature);
    EndAttempt(box, a, AttemptFailed, Revoked);
    SetTaskState(box, t, if repeats > 1 then Blocked else Eligible);
    return Ok(());
  }

  method CountFailures(box: Box, t: nat, signature: string) returns (n: nat)
    ensures n == Signatures(box.failures, t)[signature]
  {
    n := 0;
    for i := 0 to |box.failures|
      invariant n == Signatures(box.failures[..i], t)[signature]
    {
      assert box.failures[..i + 1][..i] == box.failures[..i];
      if box.failures[i].task == t && box.failures[i].signature == signature { n := n + 1; }
    }
    assert box.failures[..|box.failures|] == box.failures;
  }

  method Challenge(box: Box, t: nat, reason: string) returns (r: Result<()>)
    modifies box`tasks, box`attempts
    ensures match ChallengeTask(old(box.Work()), t, reason)
            case Ok(work) => r == Ok(()) && box.Work() == work
            case Err(e) => r == Err(e) && box.Work() == old(box.Work())
  {
    if reason == "" { return Err(Malformed); }
    if t >= |box.tasks| { return Err(NotFound); }
    var current := box.tasks[t].current;
    if current.Some? && current.value < |box.attempts| && box.attempts[current.value].lease == Active {
      EndAttempt(box, current.value, AttemptCancelled, Revoked);
    }
    SetTaskState(box, t, Challenged);
    return Ok(());
  }

  // ----- completion and acceptance -----

  method Complete(box: Box, a: nat, evidence: bool) returns (r: Result<()>)
    modifies box`tasks, box`attempts, box`completions
    ensures match CompleteAttempt(old(box.Work()), a, evidence, box.now)
            case Ok(work) => r == Ok(()) && box.Work() == work
            case Err(e) => r == Err(e) && box.Work() == old(box.Work())
  {
    var t :- Guard(box.Work(), a, box.now);
    if !evidence { return Err(NotFound); }
    box.completions := box.completions + {a};
    EndAttempt(box, a, Completed, Revoked);
    SetTaskState(box, t, AwaitingVerification);
    return Ok(());
  }

  method Accept(box: Box, t: nat, evidence: bool) returns (r: Result<()>)
    modifies box`tasks
    ensures match AcceptTask(old(box.Work()), t, evidence)
            case Ok(work) => r == Ok(()) && box.Work() == work
            case Err(e) => r == Err(e) && box.Work() == old(box.Work())
  {
    if t >= |box.tasks| { return Err(NotFound); }
    var task := box.tasks[t];
    if task.state != AwaitingVerification || task.current.None? { return Err(WrongState); }
    if task.current.value !in box.completions { return Err(NotFound); }
    if !evidence { return Err(NotFound); }
    SetTaskState(box, t, Succeeded);
    return Ok(());
  }

  // ----- recovery of expired leases -----

  /** The tables after the attempts in done, all of them overdue, have been dealt with. */
  function Recovered(x: Exec, done: set<nat>, now: int): Exec {
    x.(attempts := seq(|x.attempts|, a requires 0 <= a < |x.attempts| =>
                       if a in done then LapseAttempt(x.attempts[a], now) else x.attempts[a]),
       tasks := seq(|x.tasks|, t requires 0 <= t < |x.tasks| =>
                    if x.tasks[t].current.Some? && x.tasks[t].current.value in done then LapseTask(x, t, now) else x.tasks[t]))
  }

  function OverdueUpTo(x: Exec, n: nat, now: int): set<nat>
    requires n <= |x.attempts|
  {
    set a: nat | a < n && Overdue(x.attempts[a], now)
  }

  lemma AllRecovered(x: Exec, now: int)
    ensures Recovered(x, OverdueUpTo(x, |x.attempts|, now), now) == RecoverExpired(x, now)
  {
    assert Recovered(x, OverdueUpTo(x, |x.attempts|, now), now).attempts == RecoverExpired(x, now).attempts;
    assert Recovered(x, OverdueUpTo(x, |x.attempts|, now), now).tasks == RecoverExpired(x, now).tasks;
  }

  /** One overdue attempt lapses, and its task is freed if it was executing under it. */
  method LapseLease(box: Box, a: nat, ghost x: Exec, ghost done: set<nat>)
    requires box.Work() == Recovered(x, done, box.now) && a !in done
    requires a < |x.attempts| && Overdue(x.attempts[a], box.now)
    modifies box`tasks, box`attempts
    ensures box.Work() == Recovered(x, done + {a}, box.now)
  {
    var t := box.attempts[a].task;
    EndAttempt(box, a, AttemptExpired, Lapsed);
    if t < |box.tasks| && box.tasks[t].current == Some(a) && box.tasks[t].state == Executing {
      SetTaskState(box, t, Eligible);
    }
    assert box.attempts == Recovered(x, done + {a}, box.now).attempts;
    assert box.tasks == Recovered(x, done + {a}, box.now).tasks;
  }

  function Listed(ids: seq<nat>): set<nat> {
    set a | a in ids
  }

  ghost predicate Rising(ids: seq<nat>) {
    forall j, k | 0 <= j < k < |ids| :: ids[j] < ids[k]
  }

  lemma {:induction false} RisingSize(ids: seq<nat>)
    requires Rising(ids)
    ensures |Listed(ids)| == |ids|
  {
    if ids != [] {
      var n := |ids| - 1;
      RisingSize(ids[..n]);
      assert ids == ids[..n] + [ids[n]];
      assert Listed(ids) == Listed(ids[..n]) + {ids[n]};
    }
  }

  lemma OverdueGrows(x: Exec, i: nat, now: int)
    requires i < |x.attempts|
    ensures OverdueUpTo(x, i + 1, now) == OverdueUpTo(x, i, now) + (if Overdue(x.attempts[i], now) then {i} else {})
  {
  }

  method FindOverdue(box: Box) returns (overdue: seq<nat>)
    ensures Rising(overdue) && Listed(overdue) == OverdueUpTo(box.Work(), |box.attempts|, box.now)
  {
    overdue := [];
    for i := 0 to |box.attempts|
      invariant forall k | 0 <= k < |overdue| :: overdue[k] < i
      invariant Rising(overdue) && Listed(overdue) == OverdueUpTo(box.Work(), i, box.now)
    {
      OverdueGrows(box.Work(), i, box.now);
      if Overdue(box.attempts[i], box.now) {
        overdue := overdue + [i];
      }
    }
  }

  /** The next lease of the list lapses, if it is still active; it always is. */
  method LapseNext(box: Box, overdue: seq<nat>, k: nat, ghost x: Exec) returns (lapsed: bool)
    requires k < |overdue| && Rising(overdue) && Listed(overdue) <= OverdueUpTo(x, |x.attempts|, box.now)
    requires box.Work() == Recovered(x, Listed(overdue[..k]), box.now)
    modifies box`tasks, box`attempts
    ensures lapsed && box.Work() == Recovered(x, Listed(overdue[..k + 1]), box.now)
  {
    var a := overdue[k];
    assert a in Listed(overdue);
    assert overdue[..k + 1] == overdue[..k] + [a];
    assert Listed(overdue[..k + 1]) == Listed(overdue[..k]) + {a};
    lapsed := box.attempts[a].lease == Active;
    if lapsed { LapseLease(box, a, x, Listed(overdue[..k])); }
  }

  lemma NoneRecovered(x: Exec, now: int)
    ensures Recovered(x, {}, now) == x
  {
    assert Recovered(x, {}, now).attempts == x.attempts && Recovered(x, {}, now).tasks == x.tasks;
  }

  /** Lapses every overdue lease and frees the tasks that were executing under one; answers how many there were. */
  method RecoverExpiredLeases(box: Box) returns (recovered: nat)
    modifies box`tasks, box`attempts
    ensures box.Work() == RecoverExpired(old(box.Work()), box.now)
    ensures recovered == |OverdueUpTo(old(box.Work()), old(|box.attempts|), box.now)|
  {
    ghost var x := box.Work();
    var overdue := FindOverdue(box);
    recovered := 0;
    NoneRecovered(x, box.now);
    for k := 0 to |overdue|
      invariant recovered == k
      invariant box.Work() == Recovered(x, Listed(overdue[..k]), box.now)
    {
      var lapsed := LapseNext(box, overdue, k, x);
      if lapsed { recovered := recovered + 1; }
    }
    assert overdue[..|overdue|] == overdue;
    RisingSize(overdue);
    AllRecovered(x, box.now);
  }
}
