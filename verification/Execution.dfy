/** Tasks, attempts and leases. A table is the sequence of its rows in insertion order and a row's index is its
    identifier; no row is ever deleted. Every transaction is a function from tables to tables or an error. */
module Execution {
  import opened Domain
  import opened Strings

  datatype Purpose = Purpose(kind: string, id: string)

  /** What a caller submits. An absent time or envelope is None. */
  datatype TaskRequest = TaskRequest(
    purpose: Purpose, taskClass: string, objective: string, payload: string, key: string,
    criteria: seq<string>, required: seq<string>, enforcement: Enforcement, authority: seq<string>,
    envelope: Option<nat>, priority: int, earliest: Option<int>, deadline: Option<int>)

  /** The columns of a task that no transaction updates. The stored request hash covers exactly these. */
  datatype TaskSpec = TaskSpec(
    parent: Option<nat>, purpose: Purpose, taskClass: string, objective: string, payload: string, key: string,
    criteria: seq<string>, required: set<string>, enforcement: Enforcement, authority: set<string>,
    envelope: nat, priority: int, earliest: Option<int>, deadline: Option<int>)

  datatype Task = Task(spec: TaskSpec, state: TaskState, current: Option<nat>, fence: nat)

  datatype Attempt = Attempt(task: nat, state: AttemptState, fence: nat, lease: LeaseState, expires: int, kind: string)

  datatype Failure = Failure(task: nat, attempt: nat, signature: string)

  datatype Exec = Exec(tasks: seq<Task>, attempts: seq<Attempt>, failures: seq<Failure>, completions: set<nat>)

  const EMPTY: Exec := Exec([], [], [], {})

  // ----- creating tasks -----

  function Criteria(values: seq<string>): seq<string> {
    if values == [] then []
    else
      var last := Trim(values[|values| - 1]);
      Criteria(values[..|values| - 1]) + (if last == "" then [] else [last])
  }

  predicate WindowOk(earliest: Option<int>, deadline: Option<int>) {
    earliest.Some? && deadline.Some? ==> earliest.value <= deadline.value
  }

  function Payload(text: string): string {
    if Trim(text) == "" then "{}" else text
  }

  /** The specification a root request stands for, once defaults are filled in. */
  function RootDraft(r: TaskRequest): TaskSpec {
    var required := Cleaned(r.required);
    TaskSpec(None, r.purpose, Trim(r.taskClass), Trim(r.objective), Payload(r.payload), Trim(r.key),
             Criteria(r.criteria), required,
             if r.enforcement == Unrecognised("") then Unenforced else r.enforcement,
             if Cleaned(r.authority) == {} then required else Cleaned(r.authority),
             if r.envelope.Some? then r.envelope.value else 0, r.priority, r.earliest, r.deadline)
  }

  predicate RootAdmissible(r: TaskRequest, spec: TaskSpec) {
    && spec.criteria != []
    && !spec.enforcement.Unrecognised?
    && r.envelope.Some?
    && spec.required <= spec.authority
    && WindowOk(spec.earliest, spec.deadline)
  }

  function RootSpec(r: TaskRequest): Result<TaskSpec> {
    if RootAdmissible(r, RootDraft(r)) then Ok(RootDraft(r)) else Err(Malformed)
  }

  /** A child inherits whatever its request leaves blank. */
  function ChildDraft(parentId: nat, parent: TaskSpec, r: TaskRequest): TaskSpec {
    TaskSpec(Some(parentId),
             if r.purpose == Purpose("", "") then parent.purpose else r.purpose,
             if Trim(r.taskClass) == "" then parent.taskClass else Trim(r.taskClass),
             Trim(r.objective), Payload(r.payload), Trim(r.key), Criteria(r.criteria), Cleaned(r.required),
             if r.enforcement == Unrecognised("") then parent.enforcement else r.enforcement,
             if r.authority == [] then parent.authority else Cleaned(r.authority),
             if r.envelope.None? then parent.envelope else r.envelope.value,
             if r.priority == 0 then parent.priority else r.priority,
             if r.earliest.None? then parent.earliest else r.earliest,
             if r.deadline.None? then parent.deadline else r.deadline)
  }

  predicate ChildAdmissible(parent: TaskSpec, r: TaskRequest, spec: TaskSpec) {
    && spec.purpose == parent.purpose
    && spec.required <= parent.authority
    && spec.authority <= parent.authority
    && spec.required <= spec.authority
    && spec.envelope == parent.envelope
    && (spec.enforcement.Unrecognised? ==> r.enforcement == Unrecognised(""))
    && parent.enforcement.Rank() <= spec.enforcement.Rank()
    && spec.criteria != []
    && (parent.earliest.Some? && spec.earliest.Some? ==> parent.earliest.value <= spec.earliest.value)
    && (parent.deadline.Some? && spec.deadline.Some? ==> spec.deadline.value <= parent.deadline.value)
    && WindowOk(spec.earliest, spec.deadline)
  }

  function ChildSpec(parentId: nat, parent: TaskSpec, r: TaskRequest): Result<TaskSpec> {
    var spec := ChildDraft(parentId, parent, r);
    if ChildAdmissible(parent, r, spec) then Ok(spec) else Err(Exceeds)
  }

  /** The row holding an idempotency key, if any. */
  function FindKey(tasks: seq<Task>, key: string): (r: Option<nat>)
    ensures r.Some? ==> r.value < |tasks| && tasks[r.value].spec.key == key
    ensures r.None? ==> forall t | 0 <= t < |tasks| :: tasks[t].spec.key != key
  {
    if tasks == [] then None
    else if tasks[|tasks| - 1].spec.key == key then Some(|tasks| - 1)
    else FindKey(tasks[..|tasks| - 1], key)
  }

  /** The descendant d stays inside what the ancestor a was granted. */
  predicate Attenuates(a: TaskSpec, d: TaskSpec) {
    && d.authority <= a.authority
    && d.enforcement.Rank() >= a.enforcement.Rank()
    && d.purpose == a.purpose
    && d.envelope == a.envelope
    && (a.earliest.Some? ==> d.earliest.Some? && a.earliest.value <= d.earliest.value)
    && (a.deadline.Some? ==> d.deadline.Some? && d.deadline.value <= a.deadline.value)
  }

  /** What both request normalisers establish before a row is inserted. */
  predicate Grounded(tasks: seq<Task>, spec: TaskSpec) {
    && spec.required <= spec.authority
    && WindowOk(spec.earliest, spec.deadline)
    && (spec.parent.Some? ==> spec.parent.value < |tasks| && Attenuates(tasks[spec.parent.value].spec, spec))
  }

  lemma RootGrounded(tasks: seq<Task>, r: TaskRequest)
    ensures RootSpec(r).Ok? ==> Grounded(tasks, RootSpec(r).value) && RootSpec(r).value.parent == None
  {
  }

  lemma ChildGrounded(tasks: seq<Task>, p: nat, r: TaskRequest)
    requires p < |tasks|
    ensures ChildSpec(p, tasks[p].spec, r).Ok? ==>
      Grounded(tasks, ChildSpec(p, tasks[p].spec, r).value) && ChildSpec(p, tasks[p].spec, r).value.parent == Some(p)
  {
  }

  /** The task an insertion of this specification yields: the holder of its key, or a new row. */
  function TaskId(tasks: seq<Task>, spec: TaskSpec): nat {
    var existing := if spec.key == "" then None else FindKey(tasks, spec.key);
    if existing.Some? then existing.value else |tasks|
  }

  /** Inserts a task or replays the one that already holds its idempotency key. */
  function InsertTask(x: Exec, spec: TaskSpec, guard: bool, purposeValid: bool): Result<Exec> {
    var id := TaskId(x.tasks, spec);
    if !guard then Err(WrongState)
    else if id < |x.tasks| then
      if x.tasks[id].spec == spec then Ok(x) else Err(Conflict)
    else if !purposeValid then Err(InvalidPurpose)
    else Ok(x.(tasks := x.tasks + [Task(spec, Eligible, None, 0)]))
  }

  // ----- leases (text arguments arrive trimmed: the services trim before they open the transaction) -----

  function WithTask(x: Exec, t: nat, state: TaskState): Exec
    requires t < |x.tasks|
  {
    x.(tasks := x.tasks[t := x.tasks[t].(state := state)])
  }

  function WithAttempt(x: Exec, a: nat, state: AttemptState, lease: LeaseState): Exec
    requires a < |x.attempts|
  {
    x.(attempts := x.attempts[a := x.attempts[a].(state := state, lease := lease)])
  }

  function StartAttempt(x: Exec, t: nat, kind: string, duration: int, began: int): Result<Exec> {
    if kind == "" || duration <= 0 then Err(Malformed)
    else if t >= |x.tasks| then Err(NotFound)
    else if x.tasks[t].state != Eligible then Err(WrongState)
    else
      var a := |x.attempts|;
      var fence := x.tasks[t].fence + 1;
      Ok(x.(attempts := x.attempts + [Attempt(t, Leased, fence, Active, began + duration, kind)],
             tasks := x.tasks[t := x.tasks[t].(state := Executing, current := Some(a), fence := fence)]))
  }

  /** The fence check behind every trusted mutation; it yields the attempt's task. */
  function Guard(x: Exec, a: nat, now: int): (r: Result<nat>)
    ensures r.Ok? ==> a < |x.attempts| && r.value == x.attempts[a].task < |x.tasks|
  {
    if a >= |x.attempts| || x.attempts[a].task >= |x.tasks| then Err(StaleAttempt)
    else
      var attempt := x.attempts[a];
      var task := x.tasks[attempt.task];
      if task.current != Some(a) || task.fence != attempt.fence then Err(StaleAttempt)
      else if attempt.lease != Active || attempt.expires <= now then Err(LeaseInactive)
      else if task.state != Executing then Err(StaleAttempt)
      else Ok(attempt.task)
  }

  function RenewLease(x: Exec, a: nat, duration: int, now: int): Result<Exec> {
    if duration <= 0 then Err(Malformed)
    else
      var _ :- Guard(x, a, now);
      Ok(x.(attempts := x.attempts[a := x.attempts[a].(expires := now + duration)]))
  }

  function RevokeLease(x: Exec, a: nat): Result<Exec> {
    if a >= |x.attempts| || x.attempts[a].task >= |x.tasks| then Err(StaleAttempt)
    else if x.attempts[a].lease != Active then Ok(x)
    else
      var t := x.attempts[a].task;
      var y := WithAttempt(x, a, AttemptCancelled, Revoked);
      Ok(if x.tasks[t].current == Some(a) && x.tasks[t].state == Executing then WithTask(y, t, Eligible) else y)
  }

  /** The failure signatures recorded against a task. */
  function Signatures(failures: seq<Failure>, t: nat): multiset<string> {
    if failures == [] then multiset{}
    else
      var last := failures[|failures| - 1];
      Signatures(failures[..|failures| - 1], t) + (if last.task == t then multiset{last.signature} else multiset{})
  }

  function FailAttempt(x: Exec, a: nat, signature: string, now: int): Result<Exec> {
    if signature == "" then Err(Malformed)
    else
      var t :- Guard(x, a, now);
      var failures := x.failures + [Failure(t, a, signature)];
      var repeats := Signatures(failures, t)[signature];
      var y := WithAttempt(x.(failures := failures), a, AttemptFailed, Revoked);
      Ok(WithTask(y, t, if repeats > 1 then Blocked else Eligible))
  }

  function ChallengeTask(x: Exec, t: nat, reason: string): Result<Exec> {
    if reason == "" then Err(Malformed)
    else if t >= |x.tasks| then Err(NotFound)
    else
      var current := x.tasks[t].current;
      var y := if current.Some? && current.value < |x.attempts| && x.attempts[current.value].lease == Active
               then WithAttempt(x, current.value, AttemptCancelled, Revoked) else x;
      Ok(WithTask(y, t, Challenged))
  }

  function CompleteAttempt(x: Exec, a: nat, evidence: bool, now: int): Result<Exec> {
    var t :- Guard(x, a, now);
    if !evidence then Err(NotFound)
    else
      var y := WithAttempt(x.(completions := x.completions + {a}), a, Completed, Revoked);
      Ok(WithTask(y, t, AwaitingVerification))
  }

  function AcceptTask(x: Exec, t: nat, evidence: bool): Result<Exec> {
    if t >= |x.tasks| then Err(NotFound)
    else if x.tasks[t].state != AwaitingVerification || x.tasks[t].current.None? then
      Err(WrongState)
    else if x.tasks[t].current.value !in x.completions then Err(NotFound)
    else if !evidence then Err(NotFound)
    else Ok(WithTask(x, t, Succeeded))
  }

  // ----- recovery of expired leases -----

  predicate Overdue(a: Attempt, now: int) {
    a.lease == Active && a.expires <= now
  }

  function LapseAttempt(a: Attempt, now: int): Attempt {
    if Overdue(a, now) then a.(lease := Lapsed, state := AttemptExpired) else a
  }

  function LapseTask(x: Exec, t: nat, now: int): Task
    requires t < |x.tasks|
  {
    var task := x.tasks[t];
    if task.state == Executing && task.current.Some? && task.current.value < |x.attempts|
       && x.attempts[task.current.value].task == t && Overdue(x.attempts[task.current.value], now)
    then task.(state := Eligible) else task
  }

  /** Every overdue lease lapses, and every task executing under one becomes eligible again. */
  function RecoverExpired(x: Exec, now: int): Exec {
    x.(attempts := seq(|x.attempts|, a requires 0 <= a < |x.attempts| => LapseAttempt(x.attempts[a], now)),
       tasks := seq(|x.tasks|, t requires 0 <= t < |x.tasks| => LapseTask(x, t, now)))
  }
}
